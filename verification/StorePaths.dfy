/** The shape lojix asks of a store path before it persists one. */
module StorePaths {
  const STORE_PREFIX := "/nix/store/"

  /** Terms whose presence is taken as evidence of credential material. */
  const CREDENTIAL_TERMS: seq<string> :=
    ["token", "secret", "password", "passwd", "credential", "apikey", "api-key", "api_key", "auth"]

  function LowerCase(c: char): char {
    if 'A' <= c <= 'Z' then c - 'A' + 'a' else c
  }

  predicate OccursAt(text: string, term: string, i: nat) {
    i + |term| <= |text| && text[i..i + |term|] == term
  }

  predicate Occurs(text: string, term: string) {
    exists i :: 0 <= i <= |text| && OccursAt(text, term, i)
  }

  predicate NamesCredentialMaterial(text: string) {
    var lowered := seq(|text|, i requires 0 <= i < |text| => LowerCase(text[i]));
    exists t :: 0 <= t < |CREDENTIAL_TERMS| && Occurs(lowered, CREDENTIAL_TERMS[t])
  }

  predicate HashCharacter(c: char) {
    ('0' <= c <= '9' || 'a' <= c <= 'z') && c != 'e' && c != 'o' && c != 't' && c != 'u'
  }

  predicate NameCharacter(c: char) {
    'a' <= c <= 'z' || 'A' <= c <= 'Z' || '0' <= c <= '9' || c == '.' || c == '+' || c == '_' || c == '-'
  }

  /** `/nix/store/`, a 32-character hash, a dash, and a traversal-free name. */
  predicate IsCanonicalItem(text: string) {
    && |text| > |STORE_PREFIX| + 33
    && STORE_PREFIX <= text
    && (var item := text[|STORE_PREFIX|..];
        && item[32] == '-'
        && (forall i :: 0 <= i < 32 ==> HashCharacter(item[i]))
        && !Occurs(item[33..], "..")
        && (forall i :: 33 <= i < |item| ==> NameCharacter(item[i])))
  }

  predicate IsCanonicalItemRoot(text: string) {
    IsCanonicalItem(text) && !NamesCredentialMaterial(text)
  }
}
