/** Fresh identifiers. Every `new mongoose.Types.ObjectId()` draws the next
    number of a counter; its text is the number in lowercase hexadecimal.
    Order numbers are `"ORD-"` followed by that text. Parsing the text back
    gives the number again, so distinct draws never give equal strings. */
module ObjectIds {
  import opened Results

  function HexDigit(d: nat): (c: char)
    requires d < 16
  {
    if d < 10 then ('0' as int + d) as char else ('a' as int + d - 10) as char
  }

  function DigitValue(c: char): (r: Option<nat>)
    ensures r.Some? ==> r.value < 16
  {
    if '0' <= c <= '9' then Some(c as int - '0' as int)
    else if 'a' <= c <= 'f' then Some(c as int - 'a' as int + 10)
    else None
  }

  /** The hexadecimal text of an ObjectId number, most significant digit first. */
  function Hex(n: nat): (s: string)
    ensures |s| >= 1
    decreases n
  {
    if n < 16 then [HexDigit(n)] else Hex(n / 16) + [HexDigit(n % 16)]
  }

  /** Reads hexadecimal text back into a number; None for empty or non-hex text. */
  function ParseHex(s: string): (r: Option<nat>)
    decreases |s|
  {
    if |s| == 0 then None
    else
      var last := DigitValue(s[|s| - 1]);
      if last.None? then None
      else if |s| == 1 then last
      else match ParseHex(s[..|s| - 1])
        case None => None
        case Some(v) => Some(16 * v + last.value)
  }

  lemma {:induction false} ParseHexOfHex(n: nat)
    ensures ParseHex(Hex(n)) == Some(n)
    decreases n
  {
    if n >= 16 {
      ParseHexOfHex(n / 16);
      var s := Hex(n);
      assert s[..|s| - 1] == Hex(n / 16);
      assert s[|s| - 1] == HexDigit(n % 16);
    }
  }

  /** Every character of Hex(n) is a hexadecimal digit. */
  lemma {:induction false} HexDigitsOnly(n: nat)
    ensures forall i :: 0 <= i < |Hex(n)| ==> DigitValue(Hex(n)[i]).Some?
    decreases n
  {
    if n >= 16 {
      HexDigitsOnly(n / 16);
      var s := Hex(n);
      assert s == Hex(n / 16) + [HexDigit(n % 16)];
    }
  }

  lemma HexInjective(a: nat, b: nat)
    ensures Hex(a) == Hex(b) <==> a == b
  {
    ParseHexOfHex(a);
    ParseHexOfHex(b);
  }

  const OrderPrefix := "ORD-"

  /** The `orderId` of an order whose ObjectId number is n. */
  function OrderIdOf(n: nat): (s: string)
    ensures |s| > |OrderPrefix| && s[..|OrderPrefix|] == OrderPrefix
    ensures forall i :: |OrderPrefix| <= i < |s| ==> DigitValue(s[i]).Some?
  {
    HexDigitsOnly(n);
    OrderPrefix + Hex(n)
  }

  /** The ObjectId number behind an `orderId`, if it has the `ORD-` form. */
  function ParseOrderId(s: string): (r: Option<nat>)
  {
    if |s| >= |OrderPrefix| && s[..|OrderPrefix|] == OrderPrefix then ParseHex(s[|OrderPrefix|..]) else None
  }

  lemma ParseOrderIdOfOrderId(n: nat)
    ensures ParseOrderId(OrderIdOf(n)) == Some(n)
  {
    var s := OrderIdOf(n);
    assert s[..|OrderPrefix|] == OrderPrefix;
    assert s[|OrderPrefix|..] == Hex(n);
    ParseHexOfHex(n);
  }

  lemma OrderIdInjective(a: nat, b: nat)
    ensures OrderIdOf(a) == OrderIdOf(b) <==> a == b
  {
    ParseOrderIdOfOrderId(a);
    ParseOrderIdOfOrderId(b);
  }

  /** Text that was handed out as an ObjectId before the counter reached `next`. */
  predicate IssuedBefore(s: string, next: nat)
  {
    ParseHex(s).Some? && ParseHex(s).value < next
  }

  /** An `orderId` that was handed out before the counter reached `next`. */
  predicate OrderIdIssuedBefore(s: string, next: nat)
  {
    ParseOrderId(s).Some? && ParseOrderId(s).value < next
  }
}
