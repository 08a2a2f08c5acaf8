/**
 * JavaScript values the kanban core passes around, reduced to what its
 * ordering and record handling depends on.
 */
module Values {

  /** A value that may be missing (`undefined`). */
  datatype Option<T> = None | Some(value: T)

  /**
   * A record identifier as it travels through the program. Identifiers are
   * always whole numbers, but they are handed around both as numbers and as
   * their decimal strings, and strict equality (`===`) tells the two apart.
   */
  datatype Key =
    | Absent       // the property is not set (`undefined`)
    | Null         // `null`
    | Num(n: nat)  // the number n
    | Str(n: nat)  // the decimal string of n, as read from the DOM or from String(n)

  /** JavaScript truthiness: 0, null and undefined are falsy; a decimal string is never empty. */
  predicate Truthy(k: Key)
  {
    match k
    case Num(n) => n != 0
    case Str(_) => true
    case _ => false
  }

  /** Unary plus: a decimal string becomes its number and null becomes 0. */
  function ToNumber(k: Key): (r: Key)
    ensures r.Num? || r == Absent
    ensures r == Absent <==> k == Absent
    ensures k.Num? || k.Str? ==> r == Num(k.n)
    ensures k == Null ==> r == Num(0)
  {
    match k
    case Str(n) => Num(n)
    case Null => Num(0)
    case _ => k
  }

  /** `String(x)` on an identifier: a number becomes its decimal string. */
  function ToText(k: Key): (r: Key)
    ensures k.Num? ==> r.Str? && r.n == k.n
    ensures !k.Num? ==> r == k
  {
    match k
    case Num(n) => Str(n)
    case _ => k
  }

  /** The number a key designates when it designates one, whichever form it is in. */
  function KeyNumber(k: Key): nat
  {
    match k
    case Num(n) => n
    case Str(n) => n
    case _ => 0
  }

  /** Converting a number to text and back yields the same number. */
  lemma NumberTextRoundTrip(k: Key)
    requires k.Num?
    ensures ToNumber(ToText(k)) == k && KeyNumber(ToText(k)) == KeyNumber(k)
  {
  }

  /** A valid IndexedDB key among identifiers: a number or a string (not null, not undefined). */
  predicate IsKey(k: Key)
  {
    k.Num? || k.Str?
  }

  /** The decimal digit d. */
  function Digit(d: nat): char
    requires d < 10
  {
    (48 + d) as char
  }

  /** The decimal string of n, most significant digit first. */
  function Decimal(n: nat): (s: string)
    ensures |s| >= 1
    ensures n >= 10 ==> |s| >= 2
  {
    if n < 10 then [Digit(n)] else Decimal(n / 10) + [Digit(n % 10)]
  }

  /** Different numbers have different decimal strings. */
  lemma {:induction false} DecimalInjective(a: nat, b: nat)
    requires Decimal(a) == Decimal(b)
    ensures a == b
  {
    if a >= 10 && b >= 10 {
      var sa, sb := Decimal(a), Decimal(b);
      assert sa[..|sa| - 1] == Decimal(a / 10) && sb[..|sb| - 1] == Decimal(b / 10);
      assert Digit(a % 10) == sa[|sa| - 1] == sb[|sb| - 1] == Digit(b % 10);
      DecimalInjective(a / 10, b / 10);
    } else {
      assert Decimal(a)[0] == Decimal(b)[0];
    }
  }

  /** Code-unit order on strings, as IndexedDB compares string keys: a proper prefix comes first. */
  predicate TextBefore(a: string, b: string)
  {
    |b| > 0 && (|a| == 0 || a[0] < b[0] || (a[0] == b[0] && TextBefore(a[1..], b[1..])))
  }

  /** The code-unit order is a strict total order. */
  lemma {:induction false} TextBeforeIsStrictTotal(a: string, b: string, c: string)
    ensures !TextBefore(a, a)
    ensures TextBefore(a, b) && TextBefore(b, c) ==> TextBefore(a, c)
    ensures a != b ==> TextBefore(a, b) || TextBefore(b, a)
  {
    if |a| > 0 && |b| > 0 && |c| > 0 {
      TextBeforeIsStrictTotal(a[1..], b[1..], c[1..]);
      if a[0] == b[0] && a[1..] == b[1..] {
        assert a == [a[0]] + a[1..] && b == [b[0]] + b[1..];
      }
    } else if |a| > 0 && |b| > 0 {
      TextBeforeIsStrictTotal(a[1..], b[1..], b[1..]);
      if a[0] == b[0] && a[1..] == b[1..] {
        assert a == [a[0]] + a[1..] && b == [b[0]] + b[1..];
      }
    } else if |a| > 0 {
      TextBeforeIsStrictTotal(a[1..], a[1..], a[1..]);
    }
  }

  /**
   * IndexedDB's order on identifier keys: every number before every string,
   * numbers by value, strings by code units.
   */
  predicate KeyBefore(a: Key, b: Key)
  {
    match (a, b)
    case (Num(x), Num(y)) => x < y
    case (Num(_), Str(_)) => true
    case (Str(x), Str(y)) => TextBefore(Decimal(x), Decimal(y))
    case _ => false
  }

  /** The key order is a strict total order on valid keys. */
  lemma KeyBeforeIsStrictTotal(a: Key, b: Key, c: Key)
    ensures !KeyBefore(a, a)
    ensures KeyBefore(a, b) && KeyBefore(b, c) ==> KeyBefore(a, c)
    ensures IsKey(a) && IsKey(b) && a != b ==> KeyBefore(a, b) || KeyBefore(b, a)
  {
    if a.Str? && b.Str? && c.Str? {
      TextBeforeIsStrictTotal(Decimal(a.n), Decimal(b.n), Decimal(c.n));
      if Decimal(a.n) == Decimal(b.n) {
        DecimalInjective(a.n, b.n);
      }
    } else if a.Str? && b.Str? {
      TextBeforeIsStrictTotal(Decimal(a.n), Decimal(b.n), Decimal(b.n));
      if Decimal(a.n) == Decimal(b.n) {
        DecimalInjective(a.n, b.n);
      }
    } else if a.Str? {
      TextBeforeIsStrictTotal(Decimal(a.n), Decimal(a.n), Decimal(a.n));
    }
  }

  /** Truthiness of a possibly undefined string: the empty string is falsy. */
  predicate TextTruthy(s: Option<string>)
  {
    s.Some? && s.value != ""
  }

  /** `a || b` on two possibly undefined strings. */
  function Or(a: Option<string>, b: Option<string>): (r: Option<string>)
    ensures TextTruthy(a) ==> r == a
    ensures !TextTruthy(a) ==> r == b
  {
    if TextTruthy(a) then a else b
  }

  /** What a possibly undefined string turns into inside a template literal or a `+`. */
  function Interpolate(s: Option<string>): string
  {
    if s.Some? then s.value else "undefined"
  }
}
