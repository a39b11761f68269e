/** Vocabulary shared by every service of the backend: the (value, error)
    pairs that Go functions return, bytes, time in Unix seconds, and the
    decimal rendering that `fmt.Sprintf("%d", …)` produces when the services
    build identifiers such as "<agent>-<unix seconds>". */
module Common {

  datatype Option<+T> = None | Some(value: T)

  /** A Go `(T, error)` return: exactly one of the two is meaningful. */
  datatype Result<+T> = Ok(value: T) | Err(msg: string)

  type byte = b: int | 0 <= b < 256

  /** Durations in seconds. */
  const Minute: int := 60
  const Hour: int := 3600
  const Day: int := 86400

  /** `time.Time{}`, Go's zero time (January 1, year 1, UTC), in Unix seconds. */
  const ZeroTime: int := -62135596800

  /** What every `generateUUID()` of the backend returns: one constant, so
      every identifier made with it is the same. */
  const GeneratedUuid: string := "generated-uuid"

  /** Wraps an error the way `fmt.Errorf("<context>: %w", err)` does. */
  function Wrap(context: string, inner: string): string
  {
    context + ": " + inner
  }

  /** `m[k]` on a Go map of slices: the entry, or the empty slice when the
      key is absent. */
  function Entries<T>(m: map<string, seq<T>>, k: string): seq<T>
  {
    if k in m then m[k] else []
  }

  /** `a` is `b` with some elements dropped, the rest in their order. */
  ghost predicate Subsequence<T>(a: seq<T>, b: seq<T>)
    decreases |b|
  {
    if a == [] then true
    else if b == [] then false
    else
      || (a[|a| - 1] == b[|b| - 1] && Subsequence(a[..|a| - 1], b[..|b| - 1]))
      || Subsequence(a, b[..|b| - 1])
  }

  /** Some element of a non-empty set, as a `range` over a Go map's keys
      yields one. */
  method Pick<T>(s: set<T>) returns (x: T)
    requires s != {}
    ensures x in s
  {
    x :| x in s;
  }

  /** The largest of the counts, or 0 when there is none or all are
      negative: the loop over a Go map's keys that starts from 0 and keeps
      the larger value. */
  method MaxOrZero(counts: set<int>) returns (m: int)
    ensures m >= 0
    ensures forall c :: c in counts ==> c <= m
    ensures m == 0 || m in counts
  {
    m := 0;
    var rest := counts;
    while rest != {}
      invariant rest <= counts
      invariant m >= 0 && (m == 0 || m in counts)
      invariant forall c :: c in counts && c !in rest ==> c <= m
      decreases |rest|
    {
      var c := Pick(rest);
      if c > m {
        m := c;
      }
      rest := rest - {c};
    }
  }

  /** `strings.HasPrefix(s, p)`. */
  predicate HasPrefix(s: string, p: string)
  {
    |p| <= |s| && s[..|p|] == p
  }

  function DigitChar(d: int): (c: char)
    requires 0 <= d < 10
    ensures '0' <= c <= '9'
  {
    (48 + d) as char
  }

  /** `%d` of a non-negative number: its decimal digits, most significant first. */
  function NatToString(n: nat): (s: string)
    ensures 1 <= |s|
    ensures n < 10 <==> |s| == 1
    ensures forall i :: 0 <= i < |s| ==> '0' <= s[i] <= '9'
  {
    if n < 10 then [DigitChar(n)] else NatToString(n / 10) + [DigitChar(n % 10)]
  }

  /** `%d` of any integer: a minus sign before the digits of a negative number. */
  function IntToString(n: int): (s: string)
    ensures 1 <= |s|
  {
    if n < 0 then "-" + NatToString(-n) else NatToString(n)
  }

  /** Distinct numbers are printed differently. */
  lemma {:induction false} NatToStringInjective(a: nat, b: nat)
    requires NatToString(a) == NatToString(b)
    ensures a == b
  {
    var s := NatToString(a);
    if a >= 10 && b >= 10 {
      assert s[..|s| - 1] == NatToString(a / 10);
      assert s[..|s| - 1] == NatToString(b / 10);
      assert s[|s| - 1] == DigitChar(a % 10) == DigitChar(b % 10);
      NatToStringInjective(a / 10, b / 10);
    } else {
      assert |NatToString(a)| == |NatToString(b)|;
      assert a < 10 && b < 10;
      assert s[0] == DigitChar(a) == DigitChar(b);
    }
  }

  lemma IntToStringInjective(a: int, b: int)
    requires IntToString(a) == IntToString(b)
    ensures a == b
  {
    var s := IntToString(a);
    if a < 0 && b < 0 {
      assert s[1..] == NatToString(-a) == NatToString(-b);
      NatToStringInjective(-a, -b);
    } else if a >= 0 && b >= 0 {
      NatToStringInjective(a, b);
    } else if a < 0 {
      SignsDiffer(a, b);
    } else {
      SignsDiffer(b, a);
    }
  }

  lemma SignsDiffer(neg: int, nonneg: int)
    requires neg < 0 <= nonneg
    ensures IntToString(neg) != IntToString(nonneg)
  {
    assert IntToString(neg)[0] == '-';
    assert '0' <= IntToString(nonneg)[0] <= '9';
  }

  /** Cancelling a common prefix of two strings. */
  lemma PrefixCancel(p: string, s: string, t: string)
    requires p + s == p + t
    ensures s == t
  {
    assert s == (p + s)[|p|..];
    assert t == (p + t)[|p|..];
  }

  /** Cancelling a common suffix of two strings. */
  lemma SuffixCancel(s: string, t: string, q: string)
    requires s + q == t + q
    ensures s == t
  {
    assert |s| == |t|;
    assert s == (s + q)[..|s|];
    assert t == (t + q)[..|t|];
  }

  /** Identifiers of the form `<prefix><owner>-<unix seconds>`, as several
      services format them with `fmt.Sprintf("…%s-%d", owner, now)`. */
  function StampedId(prefix: string, owner: string, now: int): string
  {
    prefix + owner + "-" + IntToString(now)
  }

  /** Such identifiers collide exactly when they are made for one owner in
      the same second. */
  lemma StampedIdSameOwner(prefix: string, owner: string, t1: int, t2: int)
    ensures StampedId(prefix, owner, t1) == StampedId(prefix, owner, t2) <==> t1 == t2
  {
    if StampedId(prefix, owner, t1) == StampedId(prefix, owner, t2) {
      assert prefix + owner + "-" + IntToString(t1) == (prefix + owner + "-") + IntToString(t1);
      assert prefix + owner + "-" + IntToString(t2) == (prefix + owner + "-") + IntToString(t2);
      PrefixCancel(prefix + owner + "-", IntToString(t1), IntToString(t2));
      IntToStringInjective(t1, t2);
    }
  }

  /** Cancelling a common prefix and a common two-part suffix around two
      strings. */
  lemma StampCancel(prefix: string, o1: string, o2: string, sep: string, digits: string)
    requires prefix + o1 + sep + digits == prefix + o2 + sep + digits
    ensures o1 == o2
  {
    assert prefix + o1 + sep + digits == (prefix + o1) + (sep + digits);
    assert prefix + o2 + sep + digits == (prefix + o2) + (sep + digits);
    SuffixCancel(prefix + o1, prefix + o2, sep + digits);
    PrefixCancel(prefix, o1, o2);
  }

  /** Made in the same second, identifiers of different owners differ. */
  lemma StampedIdSameSecond(prefix: string, o1: string, o2: string, now: int)
    ensures StampedId(prefix, o1, now) == StampedId(prefix, o2, now) <==> o1 == o2
  {
    if StampedId(prefix, o1, now) == StampedId(prefix, o2, now) {
      StampCancel(prefix, o1, o2, "-", IntToString(now));
    }
  }
}
