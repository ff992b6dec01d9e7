/** The core store (stores/core.js) as the rest of the client uses it: the
    `auth_token` cookie as an abstract slot, and the `errors` list that
    `handleGlobalError` overwrites. Cookie attributes are not modelled. */
module Core {
  import opened JsValues

  class CoreStore {
    /** The `auth_token` cookie; None once destroyed or never set. */
    var authToken: Option<string>
    /** The shared list of error messages shown by the UI. */
    var errors: seq<string>

    constructor (cookie: Option<string>)
      ensures authToken == cookie && errors == []
    {
      authToken := cookie;
      errors := [];
    }

    /** `getToken()`: the last value saved, or None after `destroyToken`. */
    method GetToken() returns (t: Option<string>)
      ensures t == authToken
    {
      t := authToken;
    }

    /** `saveToken(token)` */
    method SaveToken(t: Option<string>)
      modifies this`authToken
      ensures authToken == t
    {
      authToken := t;
    }

    /** `destroyToken()`: the cookie is set to null. */
    method DestroyToken()
      modifies this`authToken
      ensures authToken == None
    {
      authToken := None;
    }
  }
}
