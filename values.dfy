/**
 * The loosely typed values a task payload carries (Python's None, bool, int, str,
 * list and dict), the few Python operations on them that the handlers rely on,
 * and the exceptions a handler can end with.
 */
module Values {

  datatype Value =
    | Null
    | Bool(b: bool)
    | Int(i: int)
    | Str(s: string)
    | List(items: seq<Value>)
    | Dict(entries: map<string, Value>)

  /**
   * The exception a handler raises. `Raised` is an `Exception(message)` thrown by the
   * handler itself; `Propagated` is an exception of a collaborator (client, download,
   * file helper) that escapes unchanged; the others are Python's own errors on a value
   * of the wrong shape.
   */
  datatype Error =
    | Raised(message: string)
    | Propagated(message: string)
    | AttributeError(name: string)
    | IndexError
    | KeyError(key: string)
    | TypeError

  /** `d.get(key, default)` on a dict. */
  function Get(d: map<string, Value>, key: string, default: Value): (v: Value)
    ensures key in d ==> v == d[key]
    ensures key !in d ==> v == default
  {
    if key in d then d[key] else default
  }

  /** `task.get("inputData")`: the input mapping of a task, None when the task has none. */
  function InputData(task: map<string, Value>): (v: Value)
    ensures "inputData" in task ==> v == task["inputData"]
    ensures "inputData" !in task ==> v == Null
  {
    Get(task, "inputData", Null)
  }

  /** Python truthiness: `bool(v)`. */
  predicate Truthy(v: Value)
  {
    match v
    case Null => false
    case Bool(b) => b
    case Int(i) => i != 0
    case Str(s) => s != ""
    case List(items) => items != []
    case Dict(entries) => entries != map[]
  }

  /** The decimal digits of `n`, most significant first. */
  function Digits(n: nat): (r: string)
    ensures |r| >= 1
    ensures forall k :: 0 <= k < |r| ==> '0' <= r[k] <= '9'
    decreases n
  {
    var d := [(('0' as int) + n % 10) as char];
    if n < 10 then d else Digits(n / 10) + d
  }

  /** The number a string of decimal digits denotes, most significant first. */
  function DecimalValue(s: string): int
  {
    if s == [] then 0 else DecimalValue(s[..|s| - 1]) * 10 + (s[|s| - 1] as int - '0' as int)
  }

  /** `Digits(n)` is the decimal numeral of `n`: it reads back as `n`. */
  lemma {:induction false} DigitsValue(n: nat)
    ensures DecimalValue(Digits(n)) == n
    decreases n
  {
    var d := [(('0' as int) + n % 10) as char];
    if n < 10 {
      assert Digits(n) == d;
      assert d[..0] == [];
    } else {
      var s := Digits(n / 10) + d;
      assert Digits(n) == s;
      assert s[..|s| - 1] == Digits(n / 10);
      DigitsValue(n / 10);
    }
  }

  /** Distinct numbers have distinct numerals. */
  lemma DigitsInjective(a: nat, b: nat)
    requires Digits(a) == Digits(b)
    ensures a == b
  {
    DigitsValue(a);
    DigitsValue(b);
  }

  /** `str(i)` starts with a '-' exactly for a negative integer. */
  lemma IntTextSign(i: int)
    ensures |PyStr(Int(i))| >= 1
    ensures PyStr(Int(i))[0] == '-' <==> i < 0
  {
    var m: nat := if i < 0 then -i else i;
    assert '0' <= Digits(m)[0] <= '9';
  }

  /** `str(i)` tells integers apart: a sign for negatives, then the numeral of the magnitude. */
  lemma IntTextInjective(a: int, b: int)
    requires PyStr(Int(a)) == PyStr(Int(b))
    ensures a == b
  {
    IntTextSign(a);
    IntTextSign(b);
    if a < 0 {
      assert Digits(-a) == PyStr(Int(a))[1..];
      assert Digits(-b) == PyStr(Int(b))[1..];
      DigitsInjective(-a, -b);
    } else {
      DigitsInjective(a, b);
    }
  }

  /**
   * `str(v)`, as an f-string renders it. Exact for None, booleans, integers and
   * strings; a list or dict is rendered as a fixed placeholder.
   */
  function PyStr(v: Value): string
  {
    match v
    case Null => "None"
    case Bool(b) => if b then "True" else "False"
    case Int(i) => if i < 0 then "-" + Digits(-i) else Digits(i)
    case Str(s) => s
    case List(_) => "[...]"
    case Dict(_) => "{...}"
  }
}
