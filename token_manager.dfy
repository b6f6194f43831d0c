/**
 * The process-wide holder of the current authentication token: one mutable,
 * nullable slot.
 */
module Session {
  import opened Util

  class TokenManager {
    var currentToken: Option<string>

    /** A new manager holds no token. */
    constructor ()
      ensures currentToken == None
    {
      currentToken := None;
    }

    /** Stores `token`, replacing any earlier one. */
    method SaveToken(token: string)
      modifies this
      ensures currentToken == Some(token)
    {
      currentToken := Some(token);
    }

    /** Reads the slot without changing it. */
    method GetToken() returns (token: Option<string>)
      ensures token == currentToken
    {
      token := currentToken;
    }

    /** Empties the slot. */
    method ClearToken()
      modifies this
      ensures currentToken == None
    {
      currentToken := None;
    }
  }

  /** The last saved token is the one read back; clearing leaves nothing to read. */
  method SaveSaveGetClearGet(tokens: TokenManager, first: string, second: string)
    returns (afterSaves: Option<string>, afterClear: Option<string>)
    modifies tokens
    ensures afterSaves == Some(second)
    ensures afterClear == None
  {
    tokens.SaveToken(first);
    tokens.SaveToken(second);
    afterSaves := tokens.GetToken();
    tokens.ClearToken();
    afterClear := tokens.GetToken();
  }
}
