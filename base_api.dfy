/** The authenticated API's `prepareHeaders`: attach the bearer token from the
    store, when there is one, and the JSON content type. */
module BaseApi {
  import opened Js
  import opened AuthSlice

  function LowerChar(c: char): char
  {
    if 'A' <= c <= 'Z' then (c as int + 32) as char else c
  }

  /** ASCII lower-casing, which header names undergo. */
  function LowerAscii(s: string): string
  {
    seq(|s|, i requires 0 <= i < |s| => LowerChar(s[i]))
  }

  const AuthorizationName: string := "Authorization"
  const ContentTypeName: string := "Content-Type"

  /** JavaScript truthiness of the token: present and not the empty string. */
  predicate Truthy(token: Option<string>)
  {
    token.Some? && token.value != ""
  }

  /** Lower-casing a name twice is lower-casing it once: a stored name is its own key. */
  lemma LowerAsciiIdempotent(s: string)
    ensures LowerAscii(LowerAscii(s)) == LowerAscii(s)
  {
    var once := LowerAscii(s);
    forall i | 0 <= i < |s|
      ensures LowerAscii(once)[i] == once[i]
    {
      assert once[i] == LowerChar(s[i]);
    }
  }

  /** A `Headers` object: its header list by lower-cased name. */
  class Headers {
    var entries: map<string, string>

    /** Every stored name is lower-cased, so names match without regard to case. */
    ghost predicate Valid()
      reads this
    {
      forall k :: k in entries ==> LowerAscii(k) == k
    }

    constructor ()
      ensures Valid() && entries == map[]
    {
      entries := map[];
    }

    /** `headers.set(name, value)`: replaces the value of the header whose
        name equals `name` up to case, or adds it. */
    method Set(name: string, value: string)
      requires Valid()
      modifies this
      ensures Valid()
      ensures entries == old(entries)[LowerAscii(name) := value]
    {
      LowerAsciiIdempotent(name);
      entries := entries[LowerAscii(name) := value];
    }
  }

  /** The names under which the two headers are stored. */
  const AuthorizationKey: string := LowerAscii(AuthorizationName)
  const ContentTypeKey: string := LowerAscii(ContentTypeName)

  /** `prepareHeaders(headers, {getState})`, with `getState()` given as `state`. */
  method PrepareHeaders(headers: Headers, state: RootState) returns (r: Headers)
    requires headers.Valid()
    modifies headers
    ensures r == headers && headers.Valid()
    ensures Truthy(state.auth.token) ==>
              AuthorizationKey in headers.entries
              && headers.entries[AuthorizationKey] == "Bearer " + state.auth.token.value
    ensures !Truthy(state.auth.token) ==>
              && (AuthorizationKey in headers.entries <==> AuthorizationKey in old(headers.entries))
              && (AuthorizationKey in old(headers.entries) ==>
                    headers.entries[AuthorizationKey] == old(headers.entries)[AuthorizationKey])
    ensures ContentTypeKey in headers.entries
    ensures headers.entries[ContentTypeKey] == "application/json"
    ensures headers.entries - {AuthorizationKey, ContentTypeKey}
         == old(headers.entries) - {AuthorizationKey, ContentTypeKey}
  {
    assert AuthorizationKey != ContentTypeKey by {
      assert |AuthorizationKey| == 13 && |ContentTypeKey| == 12;
    }
    var token := state.auth.token;
    if Truthy(token) {
      if Truthy(token) {
        headers.Set(AuthorizationName, "Bearer " + token.value);
      }
    }
    headers.Set(ContentTypeName, "application/json");
    r := headers;
  }
}
