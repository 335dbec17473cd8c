/**
 * The template item key: createTemplateUI writes `${templateId}:${index}`
 * (js/ui.js:39) and selectTemplateByItemKey reads it back with split(':') and
 * parseInt(_, 10) (js/selection.js:12-13).
 */
module ItemKeys {
  import opened Wrappers
  import opened Templates

  predicate IsDigit(ch: char) {
    '0' <= ch <= '9'
  }

  function DigitChar(d: nat): char
    requires d < 10
  {
    "0123456789"[d]
  }

  function DigitValue(ch: char): (d: nat)
    requires IsDigit(ch)
    ensures d < 10
  {
    ch as int - '0' as int
  }

  /** The decimal form of n, as a template literal prints a non-negative integer. */
  function NatToDecimal(n: nat): (s: string)
    ensures |s| > 0 && forall i :: 0 <= i < |s| ==> IsDigit(s[i])
  {
    if n < 10 then [DigitChar(n)] else NatToDecimal(n / 10) + [DigitChar(n % 10)]
  }

  /** The value of a run of decimal digits. */
  function DigitsValue(s: string): nat
    requires forall i :: 0 <= i < |s| ==> IsDigit(s[i])
  {
    if s == [] then 0 else DigitsValue(s[..|s| - 1]) * 10 + DigitValue(s[|s| - 1])
  }

  /** The longest prefix of s made of decimal digits. */
  function LeadingDigits(s: string): (r: string)
    ensures |r| <= |s| && r == s[..|r|]
    ensures forall i :: 0 <= i < |r| ==> IsDigit(r[i])
    ensures |r| < |s| ==> !IsDigit(s[|r|])
  {
    if s == [] || !IsDigit(s[0]) then [] else [s[0]] + LeadingDigits(s[1..])
  }

  /** parseInt(s, 10) without leading white space: an optional sign, then the leading digits;
      NaN (None) when there are none. */
  function ParseInt(s: string): (r: Option<int>)
    ensures s == [] ==> r == None
    ensures |s| > 0 && IsDigit(s[0]) ==> r.Some? && r.value >= 0
    ensures r.Some? && r.value < 0 ==> s[0] == '-'
    ensures s != [] && (forall i :: 0 <= i < |s| ==> IsDigit(s[i])) ==> r == Some(DigitsValue(s))
  {
    var negative := |s| > 0 && s[0] == '-';
    var body := if |s| > 0 && (s[0] == '-' || s[0] == '+') then s[1..] else s;
    var digits := LeadingDigits(body);
    assert s != [] && (forall i :: 0 <= i < |s| ==> IsDigit(s[i])) ==> digits == s by {
      if s != [] && (forall i :: 0 <= i < |s| ==> IsDigit(s[i])) {
        assert body == s;
        assert |digits| == |s|;
        assert s[..|s|] == s;
      }
    }
    if digits == [] then None
    else Some(if negative then -(DigitsValue(digits) as int) else DigitsValue(digits))
  }

  /** The first field of split(':'): everything before the first colon. */
  function BeforeColon(s: string): (r: string)
    ensures |r| <= |s| && ':' !in r && r == s[..|r|]
    ensures |r| < |s| ==> s[|r|] == ':'
  {
    if s == [] || s[0] == ':' then [] else [s[0]] + BeforeColon(s[1..])
  }

  /** The second field of split(':'), or None (undefined) when s has no colon. */
  function SecondField(s: string): Option<string> {
    var first := BeforeColon(s);
    if |first| == |s| then None else Some(BeforeColon(s[|first| + 1..]))
  }

  /** `${templateId}:${index}`. */
  function ItemKey(templateId: TemplateId, index: nat): (key: string)
    ensures |key| > |templateId| + 1 && key[..|templateId|] == templateId && key[|templateId|] == ':'
    ensures forall i :: |templateId| < i < |key| ==> IsDigit(key[i])
  {
    templateId + ":" + NatToDecimal(index)
  }

  /** The (templateId, variationIndex) pair selectTemplateByItemKey reads from a key;
      the index is None where parseInt yields NaN. */
  function ParseItemKey(key: string): (r: (TemplateId, Option<int>))
    ensures r.0 <= key && ':' !in r.0
    ensures ':' !in key ==> r == (key, None)
  {
    var field := SecondField(key);
    assert ':' !in key ==> BeforeColon(key) == key by {
      var first := BeforeColon(key);
      assert ':' !in key ==> |first| == |key|;
      assert key[..|key|] == key;
    }
    (BeforeColon(key), if field.None? then None else ParseInt(field.value))
  }

  /** The key names a variation of the catalog. */
  predicate KeyNamesVariation(c: Catalog, key: string) {
    var (id, index) := ParseItemKey(key);
    index.Some? && ValidRef(c, id, index.value)
  }

  lemma {:induction false} DigitsValueOfDecimal(n: nat)
    ensures DigitsValue(NatToDecimal(n)) == n
  {
    if n >= 10 {
      var s := NatToDecimal(n);
      DigitsValueOfDecimal(n / 10);
      assert s[..|s| - 1] == NatToDecimal(n / 10);
    }
  }

  lemma {:induction false} LeadingDigitsOfDigits(s: string, rest: string)
    requires forall i :: 0 <= i < |s| ==> IsDigit(s[i])
    requires rest == [] || !IsDigit(rest[0])
    ensures LeadingDigits(s + rest) == s
  {
    if s != [] {
      assert (s + rest)[1..] == s[1..] + rest;
      LeadingDigitsOfDigits(s[1..], rest);
    }
  }

  lemma {:induction false} BeforeColonOfPrefix(s: string, rest: string)
    requires ':' !in s
    requires rest == [] || rest[0] == ':'
    ensures BeforeColon(s + rest) == s
  {
    if s != [] {
      assert (s + rest)[1..] == s[1..] + rest;
      BeforeColonOfPrefix(s[1..], rest);
    }
  }

  /** Reading a key back gives the pair it was written from, when the template id has no colon. */
  lemma ItemKeyRoundTrip(templateId: TemplateId, index: nat)
    requires ':' !in templateId
    ensures ParseItemKey(ItemKey(templateId, index)) == (templateId, Some(index as int))
  {
    var digits := NatToDecimal(index);
    var key := ItemKey(templateId, index);
    assert key == templateId + (":" + digits);
    BeforeColonOfPrefix(templateId, ":" + digits);
    assert key[|templateId| + 1..] == digits;
    assert ':' !in digits;
    BeforeColonOfPrefix(digits, []);
    assert digits + [] == digits;
    assert SecondField(key) == Some(digits);
    assert digits[0] != '-' && digits[0] != '+';
    LeadingDigitsOfDigits(digits, []);
    DigitsValueOfDecimal(index);
  }

  /** Every key written for a catalog variation with a colon-free template id names that variation. */
  lemma CatalogKeysNameVariations(c: Catalog, templateId: TemplateId, index: nat)
    requires ValidRef(c, templateId, index) && ':' !in templateId
    ensures KeyNamesVariation(c, ItemKey(templateId, index))
  {
    ItemKeyRoundTrip(templateId, index);
  }

  /** With a colon inside the template id the pair does not survive: "a:b" and 0 read back as ("a", NaN). */
  lemma ColonInTemplateIdBreaksRoundTrip()
    ensures ItemKey("a:b", 0) == "a:b:0"
    ensures ParseItemKey(ItemKey("a:b", 0)) == ("a", None)
  {
    assert ItemKey("a:b", 0) == "a:b:0";
    assert BeforeColon("a:b:0") == "a";
    assert BeforeColon("b:0") == "b";
    assert SecondField("a:b:0") == Some("b");
    assert LeadingDigits("b") == [];
  }
}
