/** The non-secret facts that identify one paid model run. */
module ModelIdentities {
  import opened Texts

  /** Raw host facts and their normalised form have the same three fields. */
  datatype Identity = Identity(model: string, provider: string, endpoint: string)

  const DEFAULT_PROVIDER := "openai"

  function LowerChar(c: char): char {
    if 'A' <= c <= 'Z' then (c as int + 32) as char else c
  }

  function Lower(s: string): (r: string)
    ensures |r| == |s| && forall i :: 0 <= i < |s| ==> r[i] == LowerChar(s[i])
  {
    seq(|s|, i requires 0 <= i < |s| => LowerChar(s[i]))
  }

  function NormalProvider(provider: string): string {
    var named := if provider == "" then DEFAULT_PROVIDER else provider;
    var lowered := Lower(Strip(named));
    if lowered == "" then DEFAULT_PROVIDER else lowered
  }

  function ModelIdentity(facts: Identity): Identity {
    facts.(provider := NormalProvider(facts.provider))
  }

  predicate Complete(identity: Identity) {
    identity.model != "" && identity.provider != "" && identity.endpoint != ""
  }

  /** Normalising a recorded identity again changes nothing, so an identity can be compared
    * with the one read back from a record; and the provider is never what is missing. */
  lemma ModelIdentityIdempotent(facts: Identity)
    ensures ModelIdentity(ModelIdentity(facts)) == ModelIdentity(facts)
    ensures Complete(ModelIdentity(facts)) <==> facts.model != "" && facts.endpoint != ""
  {
    var named := if facts.provider == "" then DEFAULT_PROVIDER else facts.provider;
    var stripped := Strip(named);
    var once := NormalProvider(facts.provider);
    assert LowerChar('o') == 'o' && LowerChar('p') == 'p' && LowerChar('e') == 'e';
    assert once != "" && !IsSpace(once[0]) && !IsSpace(once[|once| - 1]) by {
      if stripped != "" {
        assert stripped[0] == StripLeft(named)[0];
      }
    }
    assert Strip(once) == once;
    assert Lower(once) == once;
  }
}
