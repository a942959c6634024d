/** The logging levels. The enum `LogType` is referenced by both logger
    variants; its declaration is not part of this model, only its three named
    members and the fact that a C# enum variable may hold any other value of
    its underlying type. */
module LogTypes {

  /** `Other(code)` is an enum value that is none of the named members:
      `code` ranges only over the underlying values that `Info`, `Warning`
      and `Error` do not have (those values are the named members). */
  datatype LogType = Info | Warning | Error | Other(code: int)

  /** The decimal digit for 0..9. */
  function DigitChar(d: nat): (c: char)
    requires d < 10
    ensures '0' <= c <= '9'
  {
    "0123456789"[d]
  }

  /** The decimal numeral of `n`, without leading zeros. */
  function NatToString(n: nat): (r: string)
    ensures |r| >= 1
    ensures forall i :: 0 <= i < |r| ==> '0' <= r[i] <= '9'
    decreases n
  {
    if n < 10 then [DigitChar(n)] else NatToString(n / 10) + [DigitChar(n % 10)]
  }

  /** `Enum.ToString()`: the member's name, or the decimal value when the
      value has no name. */
  function Name(t: LogType): string
  {
    match t
    case Info => "Info"
    case Warning => "Warning"
    case Error => "Error"
    case Other(c) => if c < 0 then "-" + NatToString(-c) else NatToString(c)
  }

  lemma DigitCharInjective(a: nat, b: nat)
    requires a < 10 && b < 10
    ensures DigitChar(a) == DigitChar(b) ==> a == b
  {
  }

  /** Distinct numbers have distinct numerals. */
  lemma {:induction false} NatToStringInjective(a: nat, b: nat)
    ensures NatToString(a) == NatToString(b) ==> a == b
    decreases a
  {
    var sa, sb := NatToString(a), NatToString(b);
    if sa == sb && a >= 10 && b >= 10 {
      var pa, pb := NatToString(a / 10), NatToString(b / 10);
      assert sa[|sa| - 1] == DigitChar(a % 10) && sb[|sb| - 1] == DigitChar(b % 10);
      DigitCharInjective(a % 10, b % 10);
      assert pa == sa[..|sa| - 1] == sb[..|sb| - 1] == pb;
      NatToStringInjective(a / 10, b / 10);
    } else if sa == sb && a < 10 && b < 10 {
      DigitCharInjective(a, b);
    }
  }

  /** The first character of a name tells a named member from a number. */
  lemma NameHead(t: LogType)
    ensures |Name(t)| >= 1
    ensures t.Other? <==> (Name(t)[0] == '-' || '0' <= Name(t)[0] <= '9')
    ensures t.Other? ==> (Name(t)[0] == '-' <==> t.code < 0)
  {
  }

  /** The name written in a file line identifies the level: distinct levels
      have distinct names. */
  lemma NameInjective(a: LogType, b: LogType)
    ensures Name(a) == Name(b) ==> a == b
  {
    if Name(a) == Name(b) {
      NameHead(a);
      NameHead(b);
      if a.Other? && b.Other? {
        if a.code < 0 {
          assert Name(a)[1..] == NatToString(-a.code);
          assert Name(b)[1..] == NatToString(-b.code);
          NatToStringInjective(-a.code, -b.code);
        } else {
          NatToStringInjective(a.code, b.code);
        }
      }
    }
  }

  /** No level's name contains a closing bracket, so the bracketed fields of
      a file line can be told apart. */
  lemma NameHasNoBracket(t: LogType)
    ensures ']' !in Name(t)
  {
  }
}
