/** Key shape and attribute values shared by the key-value tables. */
module Ddb {

  import opened Wrappers

  /** The composite primary key (partition key, sort key) of a table. */
  datatype TableKey = TableKey(pk: string, sk: string)

  /** One attribute value as a stream record carries it: numbers travel as decimal text. */
  datatype AttributeValue = S(s: string) | N(n: string)

  /** A record image: attribute name to attribute value. */
  type Image = map<string, AttributeValue>

  /** `image[name].S`: the string held by an attribute, undefined when absent or not a string. */
  function StringAttr(image: Image, name: string): (r: Option<string>)
    ensures r.Some? <==> name in image && image[name].S?
    ensures r.Some? ==> image[name] == S(r.value)
  {
    if name in image && image[name].S? then Some(image[name].s) else None
  }

  /** `image[name].N`: the number text held by an attribute, undefined when absent or not a number. */
  function NumberAttr(image: Image, name: string): (r: Option<string>)
    ensures r.Some? <==> name in image && image[name].N?
    ensures r.Some? ==> image[name] == N(r.value)
  {
    if name in image && image[name].N? then Some(image[name].n) else None
  }

  /** Decimal text of a natural number, as a number attribute is written. */
  function DecimalText(n: nat): (r: string)
    ensures |r| >= 1
    ensures forall i :: 0 <= i < |r| ==> '0' <= r[i] <= '9'
    decreases n
  {
    if n < 10 then [Digit(n)] else DecimalText(n / 10) + [Digit(n % 10)]
  }

  function Digit(d: nat): (c: char)
    requires d < 10
    ensures '0' <= c <= '9'
    ensures c as int - '0' as int == d
  {
    ['0', '1', '2', '3', '4', '5', '6', '7', '8', '9'][d]
  }

  /** Different numbers have different decimal texts. */
  lemma {:induction false} DecimalTextInjective(a: nat, b: nat)
    requires DecimalText(a) == DecimalText(b)
    ensures a == b
    decreases a
  {
    if a < 10 && b < 10 {
      assert Digit(a) == DecimalText(a)[0] == Digit(b);
    } else if a < 10 || b < 10 {
      assert false;
    } else {
      var ta, tb := DecimalText(a), DecimalText(b);
      assert ta[..|ta| - 1] == DecimalText(a / 10) && tb[..|tb| - 1] == DecimalText(b / 10);
      assert Digit(a % 10) == ta[|ta| - 1] == Digit(b % 10);
      DecimalTextInjective(a / 10, b / 10);
    }
  }

  /** In `kind#digits` the '#' after the kind is the last one. */
  lemma LastHash(kind: string, n: nat)
    ensures (kind + "#" + DecimalText(n))[|kind|] == '#'
    ensures forall j :: |kind| < j < |kind + "#" + DecimalText(n)| ==> (kind + "#" + DecimalText(n))[j] != '#'
  {
    var k, d := kind + "#" + DecimalText(n), DecimalText(n);
    forall j | j > |kind| && j < |k| ensures k[j] != '#' {
      assert k[j] == d[j - |kind| - 1];
    }
  }

  /**
   * A sort key `kind#digits` determines both its kind and its number: the digits hold no
   * '#', so the last '#' separates the two.
   */
  lemma LabelledKeyInjective(kind1: string, kind2: string, a: nat, b: nat)
    requires kind1 + "#" + DecimalText(a) == kind2 + "#" + DecimalText(b)
    ensures kind1 == kind2 && a == b
  {
    var k := kind1 + "#" + DecimalText(a);
    LastHash(kind1, a);
    LastHash(kind2, b);
    assert |kind1| == |kind2|;
    assert kind1 == k[..|kind1|] == kind2;
    assert DecimalText(a) == k[|kind1| + 1..] == DecimalText(b);
    DecimalTextInjective(a, b);
  }

  /** Decimal text of an integer, with a leading '-' when negative. */
  function IntText(n: int): (r: string)
    ensures |r| >= 1
  {
    if n < 0 then "-" + DecimalText(-n) else DecimalText(n)
  }
}
