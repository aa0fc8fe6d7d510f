/** What the checks on a store path accept, said without them. */
module StorePathShapes {
  import opened StorePaths

  /** The digits of a base 32 that leaves out e, o, t and u. */
  predicate HashLetter(c: char) {
    '0' <= c <= '9' || 'a' <= c <= 'd' || 'f' <= c <= 'n' || 'p' <= c <= 's' || 'v' <= c <= 'z'
  }

  predicate NamesItem(name: string) {
    && name != "" && (forall i :: 0 <= i < |name| ==> NameLetter(name[i]))
    && forall i :: 0 <= i < |name| - 1 ==> !(name[i] == '.' && name[i + 1] == '.')
  }

  /** An ASCII letter or digit, or one of four signs. */
  predicate NameLetter(c: char) {
    || 'a' <= c <= 'z' || 'A' <= c <= 'Z' || '0' <= c <= '9'
    || c == '.' || c == '+' || c == '_' || c == '-'
  }

  /** The text is the store's directory, a hash, a dash and a name. */
  ghost predicate SplitsInto(text: string, hash: string, name: string) {
    && text == "/nix/store/" + hash + "-" + name
    && |hash| == 32 && (forall i :: 0 <= i < 32 ==> HashLetter(hash[i])) && NamesItem(name)
  }

  lemma HashDigit(c: char)
    ensures HashCharacter(c) <==> HashLetter(c)
  {
  }

  lemma TwoDots(name: string)
    ensures Occurs(name, "..") <==> exists i :: 0 <= i < |name| - 1 && name[i] == '.' && name[i + 1] == '.'
  {
    if Occurs(name, "..") {
      var i :| 0 <= i <= |name| && OccursAt(name, "..", i);
      var dots := "..";
      assert |dots| == 2 && dots[0] == '.' && dots[1] == '.';
      assert name[i..i + |dots|] == dots;
      assert name[i] == dots[0] && name[i + 1] == dots[1];
    }
    if i :| 0 <= i < |name| - 1 && name[i] == '.' && name[i + 1] == '.' {
      assert name[i..i + 2] == "..";
      assert OccursAt(name, "..", i);
    }
  }

  /** A text is accepted as an item exactly when it splits so, and it splits in one way only. */
  lemma CanonicalExactly(text: string)
    ensures IsCanonicalItem(text) <==> exists hash, name :: SplitsInto(text, hash, name)
    ensures forall hash, name, hash', name' ::
              SplitsInto(text, hash, name) && SplitsInto(text, hash', name') ==> hash == hash' && name == name'
  {
    if IsCanonicalItem(text) {
      Splits(text);
    }
    forall hash, name | SplitsInto(text, hash, name) ensures IsCanonicalItem(text) && hash == text[11..43] && name == text[44..] {
      Joins(text, hash, name);
    }
  }

  lemma Splits(text: string)
    requires IsCanonicalItem(text)
    ensures SplitsInto(text, text[11..43], text[44..])
  {
    var item := text[11..];
    var hash, name := text[11..43], text[44..];
    assert text[..11] == STORE_PREFIX && item[33..] == name && item[..32] == hash;
    forall i | 0 <= i < 32 ensures HashLetter(hash[i]) {
      assert hash[i] == item[i];
      HashDigit(hash[i]);
    }
    forall i | 0 <= i < |name| ensures NameLetter(name[i]) {
      assert name[i] == item[33 + i];
    }
    TwoDots(name);
    assert text == "/nix/store/" + hash + "-" + name;
  }

  lemma Joins(text: string, hash: string, name: string)
    requires SplitsInto(text, hash, name)
    ensures IsCanonicalItem(text) && hash == text[11..43] && name == text[44..]
  {
    var item := text[11..];
    assert item == hash + "-" + name;
    assert item[33..] == name && item[..32] == hash && item[32] == '-';
    forall i | 0 <= i < 32 ensures HashCharacter(item[i]) {
      assert item[i] == hash[i];
      HashDigit(hash[i]);
    }
    forall i | 33 <= i < |item| ensures NameCharacter(item[i]) {
      assert item[i] == name[i - 33];
    }
    TwoDots(name);
    assert text[..11] == STORE_PREFIX;
  }

  // ---- credentials -------------------------------------------------------

  /** The same text but for the case of ASCII letters. */
  predicate SameLetters(text: string, term: string) {
    |text| == |term| && forall i :: 0 <= i < |term| ==> SameLetter(text[i], term[i])
  }

  predicate SameLetter(c: char, small: char) {
    c == small || ('a' <= small <= 'z' && c as int == small as int - 32)
  }

  /** Somewhere in the text stands one of nine terms, in letters of either case. */
  ghost predicate SpellsCredential(text: string) {
    exists i, j :: 0 <= i <= j <= |text| && IsTerm(text[i..j])
  }

  predicate IsTerm(part: string) {
    || SameLetters(part, "token") || SameLetters(part, "secret") || SameLetters(part, "password")
    || SameLetters(part, "passwd") || SameLetters(part, "credential") || SameLetters(part, "apikey")
    || SameLetters(part, "api-key") || SameLetters(part, "api_key") || SameLetters(part, "auth")
  }

  function Lowered(text: string): string {
    seq(|text|, i requires 0 <= i < |text| => LowerCase(text[i]))
  }

  lemma LoweredTerm(part: string, term: string)
    requires forall i :: 0 <= i < |term| ==> !('A' <= term[i] <= 'Z')
    ensures Lowered(part) == term <==> SameLetters(part, term)
  {
    if SameLetters(part, term) {
      forall i | 0 <= i < |part| ensures Lowered(part)[i] == term[i] {}
    }
    if Lowered(part) == term {
      forall i | 0 <= i < |term| ensures SameLetter(part[i], term[i]) {
        assert Lowered(part)[i] == term[i];
      }
    }
  }

  lemma TermsAre(part: string)
    ensures IsTerm(part) <==> exists t :: 0 <= t < |CREDENTIAL_TERMS| && Lowered(part) == CREDENTIAL_TERMS[t]
  {
    hide SameLetters, Lowered;
    var terms := CREDENTIAL_TERMS;
    TermsSmall();
    forall t | 0 <= t < 9 ensures Lowered(part) == terms[t] <==> SameLetters(part, terms[t]) {
      LoweredTerm(part, terms[t]);
    }
    assert terms[0] == "token" && terms[1] == "secret" && terms[2] == "password" && terms[3] == "passwd";
    assert terms[4] == "credential" && terms[5] == "apikey" && terms[6] == "api-key" && terms[7] == "api_key";
    assert terms[8] == "auth";
  }

  lemma TermsSmall()
    ensures |CREDENTIAL_TERMS| == 9
    ensures forall t, i :: 0 <= t < 9 && 0 <= i < |CREDENTIAL_TERMS[t]| ==> !('A' <= CREDENTIAL_TERMS[t][i] <= 'Z')
  {
  }

  /** A text is taken to name credentials exactly when one of the terms stands in it, whatever the case of its letters. */
  lemma CredentialsExactly(text: string)
    ensures NamesCredentialMaterial(text) <==> SpellsCredential(text)
  {
    hide IsTerm;
    var lowered := Lowered(text);
    if t :| 0 <= t < |CREDENTIAL_TERMS| && Occurs(lowered, CREDENTIAL_TERMS[t]) {
      var i :| 0 <= i <= |lowered| && OccursAt(lowered, CREDENTIAL_TERMS[t], i);
      var j := i + |CREDENTIAL_TERMS[t]|;
      assert Lowered(text[i..j]) == lowered[i..j];
      TermsAre(text[i..j]);
      assert IsTerm(text[i..j]);
    }
    if i, j :| 0 <= i <= j <= |text| && IsTerm(text[i..j]) {
      TermsAre(text[i..j]);
      var t :| 0 <= t < |CREDENTIAL_TERMS| && Lowered(text[i..j]) == CREDENTIAL_TERMS[t];
      assert Lowered(text[i..j]) == lowered[i..j];
      assert OccursAt(lowered, CREDENTIAL_TERMS[t], i);
    }
  }
}
