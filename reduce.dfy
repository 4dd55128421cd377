/** The reduction selector: `Setup` turns a configuration element into a
    `Config` naming the reduction function to run, parsing the threshold
    family `cnt_<op>_<value>` on the way. */
module Reduce {

  datatype Option<+T> = None | Some(value: T)

  /** The reduction functions a `Config` can name; `Unset` is the nil `Func`
      that error returns carry. */
  datatype ReduceFunc = Unset | Mean | MeanOverlap | Sum | SumOverlap | Threshold | ThresholdOverlap

  /** The fields of the configuration element that `Setup` reads. */
  datatype Element = Element(reduceDef: string, overlapping: bool, maxMissing: int)

  /** The per-run policy: the threshold operator and value are only set for
      the `cnt_` family (empty and zero otherwise). */
  datatype Config = Config(
    name: string,
    func: ReduceFunc,
    overlapping: bool,
    maxMissing: int,
    threshold: string,
    thresholdValue: real)

  const InvalidThresholdMessage := "invalid threshold"
  const UnknownReductionMessage := "unknown reduction"

  predicate IsDigit(ch: char) {
    '0' <= ch <= '9'
  }

  /** The five comparison operators of the threshold family. */
  predicate IsOp(op: string) {
    op == "lt" || op == "gt" || op == "le" || op == "ge" || op == "eq"
  }

  predicate AllDigits(s: string) {
    forall k :: 0 <= k < |s| ==> IsDigit(s[k])
  }

  /** Where the decimal point of `s` is: the index of its first `.`, or
      `|s|` when it has none. */
  function PointIndex(s: string): (k: nat)
    ensures k <= |s|
    ensures k < |s| ==> s[k] == '.'
    ensures forall j :: 0 <= j < k ==> s[j] != '.'
  {
    if s == [] || s[0] == '.' then 0 else 1 + PointIndex(s[1..])
  }

  /** `\d*\.?\d*`: digits with at most one decimal point among them. */
  predicate DigitsWithPoint(s: string) {
    var k := PointIndex(s);
    AllDigits(s[..k]) && (k == |s| || AllDigits(s[k + 1..]))
  }

  /** The sign the value text starts with, if any. */
  function SignLength(s: string): (n: nat)
    ensures n <= |s|
  {
    if |s| > 0 && (s[0] == '-' || s[0] == '+') then 1 else 0
  }

  /** `[-+]?\d*\.?\d*`: the value part of the threshold pattern. */
  predicate IsValueText(s: string) {
    DigitsWithPoint(s[SignLength(s)..])
  }

  /** The match of `^(cnt)_(lt|gt|le|ge|eq)_([-+]?\d*\.?\d*)$` against a
      reduction name: the operator and the value text, or no match. */
  function MatchThreshold(name: string): (r: Option<(string, string)>)
    ensures r.Some? ==> IsOp(r.value.0) && IsValueText(r.value.1) && name == "cnt_" + r.value.0 + "_" + r.value.1
  {
    if |name| >= 7 && name[..4] == "cnt_" && IsOp(name[4..6]) && name[6] == '_' && IsValueText(name[7..])
    then
      assert name == name[..4] + name[4..6] + [name[6]] + name[7..];
      Some((name[4..6], name[7..]))
    else None
  }

  /** The pattern matches exactly the names `cnt_` + operator + `_` + value
      text, and then yields that operator and that value text. */
  lemma ThresholdPatternExact(name: string, op: string, v: string)
    ensures MatchThreshold(name) == Some((op, v)) <==>
            (IsOp(op) && IsValueText(v) && name == "cnt_" + op + "_" + v)
  {
    if IsOp(op) && IsValueText(v) && name == "cnt_" + op + "_" + v {
      assert |op| == 2;
      assert name[..4] == "cnt_";
      assert name[4..6] == op;
      assert name[6] == '_';
      assert name[7..] == v;
    }
    if MatchThreshold(name) == Some((op, v)) {
      assert name == name[..4] + name[4..6] + [name[6]] + name[7..];
    }
  }

  function HasDigit(s: string): bool {
    exists k :: 0 <= k < |s| && IsDigit(s[k])
  }

  /** The number a run of decimal digits spells. */
  function DigitsValue(s: string): nat
    requires AllDigits(s)
  {
    if s == [] then 0 else 10 * DigitsValue(s[..|s| - 1]) + (s[|s| - 1] - '0') as nat
  }

  function Pow10(n: nat): (r: nat)
    ensures r > 0
  {
    if n == 0 then 1 else 10 * Pow10(n - 1)
  }

  /** The unsigned decimal a `\d*\.?\d*` text spells: the digits before the
      point, plus the digits after it scaled down by their count. */
  function UnsignedValue(s: string): real
    requires DigitsWithPoint(s)
  {
    var k := PointIndex(s);
    if k == |s| then DigitsValue(s) as real
    else DigitsValue(s[..k]) as real + DigitsValue(s[k + 1..]) as real / Pow10(|s| - k - 1) as real
  }

  /** Parsing a value text the pattern admitted: it succeeds exactly when the
      text holds at least one digit (`""`, `"+"`, `"."` and `"-."` fail), and
      gives the signed decimal the text spells. */
  function ParseValue(s: string): (r: Option<real>)
    requires IsValueText(s)
    ensures r.Some? <==> HasDigit(s)
  {
    var body := s[SignLength(s)..];
    assert HasDigit(s) <==> HasDigit(body) by {
      if HasDigit(s) {
        var k :| 0 <= k < |s| && IsDigit(s[k]);
        assert body[k - SignLength(s)] == s[k];
      }
      if HasDigit(body) {
        var k :| 0 <= k < |body| && IsDigit(body[k]);
        assert s[k + SignLength(s)] == body[k];
      }
    }
    if !HasDigit(body) then None
    else
      var x := UnsignedValue(body);
      Some(if |s| > 0 && s[0] == '-' then -x else x)
  }

  /** Builds the configuration for a configuration element. The name,
      overlap flag and missing-data limit are copied on every path, errors
      included; the function is set only on success. */
  function Setup(elem: Element): (r: (Config, Option<string>))
    ensures r.0.name == elem.reduceDef
    ensures r.0.overlapping == elem.overlapping
    ensures r.0.maxMissing == elem.maxMissing
    ensures r.1.None? <==> r.0.func != Unset
    ensures r.0.func in {Mean, MeanOverlap, Sum, SumOverlap, Unset} ==> r.0.threshold == "" && r.0.thresholdValue == 0.0
  {
    var cfg := Config(elem.reduceDef, Unset, elem.overlapping, elem.maxMissing, "", 0.0);
    if cfg.name == "mean" then
      (cfg.(func := if cfg.overlapping then MeanOverlap else Mean), None)
    else if cfg.name == "sum" then
      (cfg.(func := if cfg.overlapping then SumOverlap else Sum), None)
    else match MatchThreshold(cfg.name)
      case Some((op, v)) =>
        (match ParseValue(v)
         case None => (cfg, Some(InvalidThresholdMessage))
         case Some(x) =>
           (cfg.(threshold := op, thresholdValue := x,
                 func := if cfg.overlapping then ThresholdOverlap else Threshold), None))
      case None => (cfg, Some(UnknownReductionMessage))
  }

  /** `mean` and `sum` select their overlapping variant exactly when the
      element's windows overlap, and never fail. */
  lemma SetupMeanSum(elem: Element)
    ensures elem.reduceDef == "mean" ==>
              Setup(elem).0.func == (if elem.overlapping then MeanOverlap else Mean) && Setup(elem).1 == None
    ensures elem.reduceDef == "sum" ==>
              Setup(elem).0.func == (if elem.overlapping then SumOverlap else Sum) && Setup(elem).1 == None
  {
  }

  /** A name `cnt_<op>_<value>` whose value text holds a digit selects the
      threshold family with that operator and the parsed value; one whose
      value text holds no digit fails with "invalid threshold". */
  lemma SetupThreshold(elem: Element, op: string, v: string)
    requires IsOp(op) && IsValueText(v) && elem.reduceDef == "cnt_" + op + "_" + v
    ensures HasDigit(v) ==>
              Setup(elem).1 == None &&
              Setup(elem).0.func == (if elem.overlapping then ThresholdOverlap else Threshold) &&
              Setup(elem).0.threshold == op &&
              Setup(elem).0.thresholdValue == ParseValue(v).value
    ensures !HasDigit(v) ==>
              Setup(elem).1 == Some(InvalidThresholdMessage) && Setup(elem).0.func == Unset
  {
    ThresholdPatternExact(elem.reduceDef, op, v);
  }

  /** Setup succeeds exactly for `mean`, `sum` and the threshold names whose
      value parses; every other name is an unknown reduction. */
  lemma SetupAccepts(elem: Element)
    ensures Setup(elem).1 == None <==>
              (elem.reduceDef == "mean" || elem.reduceDef == "sum" ||
               exists op, v :: IsOp(op) && IsValueText(v) && HasDigit(v) && elem.reduceDef == "cnt_" + op + "_" + v)
    ensures Setup(elem).1 == Some(UnknownReductionMessage) <==>
              (elem.reduceDef != "mean" && elem.reduceDef != "sum" && MatchThreshold(elem.reduceDef).None?)
  {
    var name := elem.reduceDef;
    if name != "mean" && name != "sum" {
      match MatchThreshold(name)
      case Some((op, v)) =>
        ThresholdPatternExact(name, op, v);
      case None =>
        forall op, v | IsOp(op) && IsValueText(v) && name == "cnt_" + op + "_" + v
          ensures false
        {
          ThresholdPatternExact(name, op, v);
        }
    }
  }

  /** Whenever a threshold function is selected its operator is one of the
      five, so the threshold reductions never meet an unknown operator
      through `Setup`. */
  lemma SetupThresholdOperator(elem: Element)
    requires Setup(elem).0.func in {Threshold, ThresholdOverlap}
    ensures IsOp(Setup(elem).0.threshold)
  {
  }

  /** The value text `2.5` parses to 2.5. */
  lemma ParseExample()
    ensures IsValueText("2.5") && ParseValue("2.5") == Some(2.5)
  {
    var v := "2.5";
    assert SignLength(v) == 0;
    assert v[0..] == v;
    assert PointIndex(v) == 1 by {
      assert PointIndex(v[1..]) == 0;
    }
    assert v[..1] == "2" && v[2..] == "5";
    assert DigitsValue("2") == 2 by { assert "2"[..0] == []; }
    assert DigitsValue("5") == 5 by { assert "5"[..0] == []; }
    assert UnsignedValue(v) == 2.5;
  }

  /** A worked example: `cnt_ge_2.5` selects the non-overlapping threshold
      reduction with operator `ge` and value 2.5. */
  lemma SetupThresholdExample()
    ensures var r := Setup(Element("cnt_ge_2.5", false, 1));
            r.1 == None && r.0.func == Threshold && r.0.threshold == "ge" && r.0.thresholdValue == 2.5
  {
    ParseExample();
    assert "cnt_ge_2.5" == "cnt_" + "ge" + "_" + "2.5";
    SetupThreshold(Element("cnt_ge_2.5", false, 1), "ge", "2.5");
  }

  /** `cnt_lt_+` matches the pattern but its value holds no digit, so it is an
      invalid threshold; `max` is an unknown reduction. */
  lemma SetupErrorExamples()
    ensures Setup(Element("cnt_lt_+", true, 0)).1 == Some(InvalidThresholdMessage)
    ensures Setup(Element("max", true, 0)).1 == Some(UnknownReductionMessage)
  {
    var w := "+";
    assert IsValueText(w) by { assert w[SignLength(w)..] == []; }
    assert !HasDigit(w);
    SetupThreshold(Element("cnt_lt_+", true, 0), "lt", w);
    assert MatchThreshold("max").None?;
  }
}
