/** The stored key of a row set aside: its table, its own key and its number, joined by slashes. */
module QuarantineKeys {

  /** The families read at open, in the order they are read. */
  const FAMILIES: seq<string> := [
    "live-set", "gc-roots", "event-log", "container-lifecycle", "deploy-job", "test-run",
    "deployment-record", "identifier-allocation", "deployment-outbox", "pending-transition-intent",
    "nexus-configuration"]

  const QUARANTINE: string := "quarantined-row"

  function Digit(d: nat): char
    requires d < 10
  {
    '0' + d as char
  }

  function Decimal(n: nat): (text: string)
    ensures text != []
  {
    if n < 10 then [Digit(n)] else Decimal(n / 10) + [Digit(n % 10)]
  }

  function KeyText(table: string, key: string, number: nat): string {
    table + "/" + key + "/" + Decimal(number)
  }

  predicate SlashFree(text: string) {
    '/' !in text
  }

  lemma {:induction false} DecimalDigits(n: nat)
    ensures forall i :: 0 <= i < |Decimal(n)| ==> '0' <= Decimal(n)[i] <= '9'
  {
    if n >= 10 { DecimalDigits(n / 10); }
  }

  /** The number a decimal numeral stands for. */
  function ValueOf(text: string): nat
    requires forall i :: 0 <= i < |text| ==> '0' <= text[i] <= '9'
  {
    if text == "" then 0 else ValueOf(text[..|text| - 1]) * 10 + (text[|text| - 1] as int - '0' as int)
  }

  /** A number is written as its decimal numeral, with no zero in front. */
  lemma {:induction false} DecimalExactly(n: nat)
    ensures forall i :: 0 <= i < |Decimal(n)| ==> '0' <= Decimal(n)[i] <= '9'
    ensures ValueOf(Decimal(n)) == n
    ensures Decimal(n)[0] == '0' ==> n == 0
  {
    DecimalDigits(n);
    if n >= 10 {
      DecimalExactly(n / 10);
      assert Decimal(n)[..|Decimal(n)| - 1] == Decimal(n / 10);
    } else {
      assert Decimal(n)[..0] == "";
    }
  }

  lemma {:induction false} DecimalInjective(m: nat, n: nat)
    requires Decimal(m) == Decimal(n)
    ensures m == n
    decreases m
  {
    if m >= 10 && n >= 10 {
      var a, b := Decimal(m), Decimal(n);
      assert a[..|a| - 1] == Decimal(m / 10) && b[..|b| - 1] == Decimal(n / 10);
      assert a[|a| - 1] == Digit(m % 10) && b[|b| - 1] == Digit(n % 10);
      DecimalInjective(m / 10, n / 10);
    }
  }

  /** Equal texts with slash-free heads before their first slash have equal heads and tails. */
  lemma SameHead(a: string, x: string, b: string, y: string)
    requires SlashFree(a) && SlashFree(b) && a + "/" + x == b + "/" + y
    ensures a == b && x == y
  {
    var s, t := a + "/" + x, b + "/" + y;
    assert s[|a|] == '/' && t[|b|] == '/';
    assert |a| == |b|;
    assert s[..|a|] == a && t[..|b|] == b;
    assert s[|a| + 1..] == x && t[|b| + 1..] == y;
  }

  /** The same for slash-free tails after the last slash. */
  lemma SameTail(a: string, x: string, b: string, y: string)
    requires SlashFree(x) && SlashFree(y) && a + "/" + x == b + "/" + y
    ensures a == b && x == y
  {
    var s, t := a + "/" + x, b + "/" + y;
    assert |a| + |x| == |b| + |y|;
    assert s[|a|] == '/' && t[|b|] == '/';
    assert |a| == |b|;
    assert s[..|a|] == a && t[..|b|] == b;
    assert s[|a| + 1..] == x && t[|b| + 1..] == y;
  }

  /** Stored keys are as good as the three parts they are made of, whatever the row's own key holds. */
  lemma KeysInjective(table: string, key: string, number: nat, table': string, key': string, number': nat)
    requires SlashFree(table) && SlashFree(table')
    ensures KeyText(table, key, number) == KeyText(table', key', number') <==>
              (table == table' && key == key' && number == number')
  {
    if KeyText(table, key, number) == KeyText(table', key', number') {
      var rest, rest' := key + "/" + Decimal(number), key' + "/" + Decimal(number');
      assert KeyText(table, key, number) == table + "/" + rest;
      assert KeyText(table', key', number') == table' + "/" + rest';
      SameHead(table, rest, table', rest');
      DecimalDigits(number);
      DecimalDigits(number');
      SameTail(key, Decimal(number), key', Decimal(number'));
      DecimalInjective(number, number');
    }
  }

  /** Every family's table name is slash-free, and that is needed. */
  lemma FamiliesSlashFree()
    ensures forall i :: 0 <= i < |FAMILIES| ==> SlashFree(FAMILIES[i])
    ensures KeyText("a/b", "c", 1) == KeyText("a", "b/c", 1)
  {
    assert "a/b" + "/" + "c" == "a" + "/" + "b/c";
  }

  lemma FamiliesDistinct()
    ensures forall i, j :: 0 <= i < j < |FAMILIES| ==> FAMILIES[i] != FAMILIES[j]
    ensures QUARANTINE !in FAMILIES
  {
    assert forall i :: 0 <= i < |FAMILIES| ==> |FAMILIES[i]| == [8, 8, 9, 19, 10, 8, 17, 21, 17, 25, 19][i];
    assert FAMILIES[0][0] == 'l' && FAMILIES[1][0] == 'g' && FAMILIES[5][0] == 't';
    assert FAMILIES[3][0] == 'c' && FAMILIES[10][0] == 'n';
    assert FAMILIES[6][11] == 'r' && FAMILIES[8][11] == 'o';
    assert |QUARANTINE| == 15;
  }
}
