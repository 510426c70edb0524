/** Decimal numerals and colon-separated fields. */
module Text {
  import opened NftSpecs

  predicate Digits(text: string) {
    forall i :: 0 <= i < |text| ==> '0' <= text[i] <= '9'
  }

  function Digit(d: nat): char
    requires d < 10
  {
    '0' + d as char
  }

  /** The shortest decimal numeral of a number. */
  function Decimal(n: nat): (text: string)
    ensures text != [] && Digits(text)
  {
    (if n < 10 then [] else Decimal(n / 10)) + [Digit(n % 10)]
  }

  function Value(text: string): nat
    requires Digits(text)
  {
    if text == [] then 0 else 10 * Value(text[..|text| - 1]) + (text[|text| - 1] - '0') as nat
  }

  /** Read an unsigned numeral no greater than `maximum`. */
  function ParseDecimal(text: string, maximum: nat): Option<nat> {
    if text == [] || !Digits(text) then None
    else if Value(text) > maximum then None
    else Some(Value(text))
  }

  lemma {:induction false} ValueOfDecimal(n: nat)
    ensures Value(Decimal(n)) == n
  {
    var text := Decimal(n);
    assert text[|text| - 1] == Digit(n % 10);
    if n < 10 {
      assert text[..|text| - 1] == [];
    } else {
      assert text[..|text| - 1] == Decimal(n / 10);
      ValueOfDecimal(n / 10);
    }
  }

  lemma DecimalIsInjective(m: nat, n: nat)
    requires Decimal(m) == Decimal(n)
    ensures m == n
  {
    ValueOfDecimal(m);
    ValueOfDecimal(n);
  }

  function Join(parts: seq<string>): string
    requires parts != []
  {
    if |parts| == 1 then parts[0] else parts[0] + ":" + Join(parts[1..])
  }

  /** Cut a text at every colon. */
  function Split(text: string): (parts: seq<string>)
    ensures parts != []
  {
    if text == [] then [""]
    else
      var rest := Split(text[1..]);
      if text[0] == ':' then [""] + rest else [[text[0]] + rest[0]] + rest[1..]
  }

  lemma {:induction false} SplitHead(head: string, rest: string)
    requires ':' !in head
    ensures Split(head + ":" + rest) == [head] + Split(rest)
  {
    if head == [] {
      assert head + ":" + rest == ":" + rest;
      assert (":" + rest)[1..] == rest;
    } else {
      SplitHead(head[1..], rest);
      assert (head + ":" + rest)[1..] == head[1..] + ":" + rest;
      assert [head[0]] + head[1..] == head;
    }
  }

  lemma {:induction false} SplitWhole(text: string)
    requires ':' !in text
    ensures Split(text) == [text]
  {
    if text != [] {
      SplitWhole(text[1..]);
      assert [text[0]] + text[1..] == text;
    }
  }

  /** Fields without colons survive joining and splitting. */
  lemma {:induction false} SplitOfJoin(parts: seq<string>)
    requires parts != [] && forall p :: p in parts ==> ':' !in p
    ensures Split(Join(parts)) == parts
  {
    if |parts| == 1 {
      SplitWhole(parts[0]);
    } else {
      SplitHead(parts[0], Join(parts[1..]));
      SplitOfJoin(parts[1..]);
    }
  }
}
