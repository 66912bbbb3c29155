/** String helpers with the meaning Python gives them in the charm. */
module Text {
  import opened Wrappers

  /** Python truthiness of an optional string: present and not empty. */
  predicate Truthy(o: Option<string>)
  {
    o.Some? && o.value != ""
  }

  predicate IsDigit(c: char)
  {
    '0' <= c <= '9'
  }

  function DigitChar(d: nat): (c: char)
    requires d < 10
    ensures IsDigit(c)
    ensures c as int - '0' as int == d
  {
    ('0' as int + d) as char
  }

  /** `str(n)` for a non-negative integer: its decimal digits, no leading zero. */
  function DecimalString(n: nat): (s: string)
    ensures |s| > 0
    ensures forall i :: 0 <= i < |s| ==> IsDigit(s[i])
    ensures |s| > 1 ==> s[0] != '0'
  {
    if n < 10 then [DigitChar(n)] else DecimalString(n / 10) + [DigitChar(n % 10)]
  }

  /** `int(s)` for a string of decimal digits. */
  function ParseDecimal(s: string): nat
    requires forall i :: 0 <= i < |s| ==> IsDigit(s[i])
  {
    if s == [] then 0
    else
      assert IsDigit(s[|s| - 1]);
      10 * ParseDecimal(s[..|s| - 1]) + (s[|s| - 1] as int - '0' as int)
  }

  /** Reading back the decimal rendering of a number gives the number. */
  lemma {:induction false} ParseDecimalString(n: nat)
    ensures ParseDecimal(DecimalString(n)) == n
  {
    var s := DecimalString(n);
    if n >= 10 {
      ParseDecimalString(n / 10);
      assert s[..|s| - 1] == DecimalString(n / 10);
    }
  }

  /** The two port numbers the charm renders. */
  lemma PortStrings()
    ensures DecimalString(2379) == "2379"
    ensures DecimalString(2380) == "2380"
  {
    assert DecimalString(2) == "2";
    assert DecimalString(23) == "23";
    assert DecimalString(237) == "237";
    assert DecimalString(238) == "238";
  }

  /**
   * `template.format(arg)` for a template whose only replacement field is
   * `{0}`: every `{0}` becomes `arg`, every other character stays.
   */
  function Format(template: string, arg: string): string
    decreases |template|
  {
    if |template| >= 3 && template[..3] == "{0}" then arg + Format(template[3..], arg)
    else if template == [] then []
    else [template[0]] + Format(template[1..], arg)
  }

  /** Text without an opening brace passes through formatting unchanged. */
  lemma {:induction false} FormatLiteral(p: string, t: string, arg: string)
    requires forall i :: 0 <= i < |p| ==> p[i] != '{'
    ensures Format(p + t, arg) == p + Format(t, arg)
    decreases |p|
  {
    if p != [] {
      var s := p + t;
      assert s[0] == p[0];
      assert |s| >= 3 ==> s[..3][0] == p[0];
      assert s[1..] == p[1..] + t;
      calc {
        Format(s, arg);
        [s[0]] + Format(s[1..], arg);
        { FormatLiteral(p[1..], t, arg); }
        [p[0]] + (p[1..] + Format(t, arg));
        { assert [p[0]] + p[1..] == p; }
        p + Format(t, arg);
      }
    } else {
      assert p + t == t;
    }
  }

  /** A leading `{0}` is replaced by the argument. */
  lemma FormatField(t: string, arg: string)
    ensures Format("{0}" + t, arg) == arg + Format(t, arg)
  {
    assert ("{0}" + t)[..3] == "{0}";
    assert ("{0}" + t)[3..] == t;
  }

  /** Python's `s.replace('/', '')`: the string with every slash removed. */
  function RemoveSlashes(s: string): (r: string)
    ensures forall i :: 0 <= i < |r| ==> r[i] != '/'
    ensures |r| <= |s|
  {
    if s == [] then []
    else if s[0] == '/' then RemoveSlashes(s[1..])
    else [s[0]] + RemoveSlashes(s[1..])
  }

  /** Removing slashes changes nothing when there is none. */
  lemma {:induction false} RemoveSlashesNone(s: string)
    requires forall i :: 0 <= i < |s| ==> s[i] != '/'
    ensures RemoveSlashes(s) == s
  {
    if s != [] {
      RemoveSlashesNone(s[1..]);
    }
  }

  /** Removing slashes distributes over concatenation. */
  lemma {:induction false} RemoveSlashesConcat(s: string, t: string)
    ensures RemoveSlashes(s + t) == RemoveSlashes(s) + RemoveSlashes(t)
  {
    if s != [] {
      assert (s + t)[0] == s[0];
      assert (s + t)[1..] == s[1..] + t;
      RemoveSlashesConcat(s[1..], t);
      if s[0] != '/' {
        calc {
          RemoveSlashes(s + t);
          [s[0]] + RemoveSlashes(s[1..] + t);
          [s[0]] + (RemoveSlashes(s[1..]) + RemoveSlashes(t));
          ([s[0]] + RemoveSlashes(s[1..])) + RemoveSlashes(t);
        }
      }
    } else {
      assert s + t == t;
    }
  }

  /** A unit name `app/N` becomes the key `appN`. */
  lemma UnitNameKey(app: string, number: string)
    requires forall i :: 0 <= i < |app| ==> app[i] != '/'
    requires forall i :: 0 <= i < |number| ==> number[i] != '/'
    ensures RemoveSlashes(app + "/" + number) == app + number
  {
    var a := RemoveSlashes(app + "/");
    assert a == app by {
      RemoveSlashesConcat(app, "/");
      RemoveSlashesNone(app);
      assert "/"[1..] == [];
      assert RemoveSlashes("/") == [];
      assert app + [] == app;
    }
    assert RemoveSlashes(number) == number by {
      RemoveSlashesNone(number);
    }
    RemoveSlashesConcat(app + "/", number);
  }

  /** Python's `str.lower()` on one ASCII character. */
  function LowerChar(c: char): (r: char)
    ensures 'A' <= c <= 'Z' ==> r as int == c as int + 32
    ensures !('A' <= c <= 'Z') ==> r == c
  {
    if 'A' <= c <= 'Z' then (c as int + 32) as char else c
  }

  /** Python's `str.lower()`, restricted to ASCII letters. */
  function Lower(s: string): (r: string)
    ensures |r| == |s|
    ensures forall i :: 0 <= i < |s| ==> r[i] == LowerChar(s[i])
  {
    seq(|s|, i requires 0 <= i < |s| => LowerChar(s[i]))
  }

  /** Lower-cased text holds no ASCII capital, so lower-casing it again changes nothing; text without capitals is kept. */
  lemma LowerIsLowerCase(s: string)
    ensures forall i :: 0 <= i < |Lower(s)| ==> !('A' <= Lower(s)[i] <= 'Z')
    ensures Lower(Lower(s)) == Lower(s)
    ensures (forall i :: 0 <= i < |s| ==> !('A' <= s[i] <= 'Z')) ==> Lower(s) == s
  {
  }

  /** Python's `sep.join(parts)`. */
  function Join(parts: seq<string>, sep: string): string
  {
    if parts == [] then ""
    else if |parts| == 1 then parts[0]
    else parts[0] + sep + Join(parts[1..], sep)
  }

  /** Python's `s.split(c)` for a one-character separator `c`. */
  function Split(s: string, c: char): (r: seq<string>)
    ensures |r| > 0
  {
    if s == [] then [""]
    else
      var rest := Split(s[1..], c);
      if s[0] == c then [""] + rest else [[s[0]] + rest[0]] + rest[1..]
  }

  lemma {:induction false} SplitNoSeparator(p: string, c: char)
    requires forall i :: 0 <= i < |p| ==> p[i] != c
    ensures Split(p, c) == [p]
  {
    if p != [] {
      SplitNoSeparator(p[1..], c);
      assert [p[0]] + p[1..] == p;
    }
  }

  lemma {:induction false} SplitAtSeparator(p: string, c: char, t: string)
    requires forall i :: 0 <= i < |p| ==> p[i] != c
    ensures Split(p + [c] + t, c) == [p] + Split(t, c)
  {
    if p == [] {
      assert p + [c] + t == [c] + t;
      assert ([c] + t)[1..] == t;
    } else {
      var s := p + [c] + t;
      assert s[0] == p[0];
      assert s[1..] == p[1..] + [c] + t;
      SplitAtSeparator(p[1..], c, t);
      assert [p[0]] + p[1..] == p;
    }
  }

  /** Joining with a separator that no part contains can be undone by splitting. */
  lemma {:induction false} SplitJoin(parts: seq<string>, c: char)
    requires |parts| > 0
    requires forall k, i :: 0 <= k < |parts| && 0 <= i < |parts[k]| ==> parts[k][i] != c
    ensures Split(Join(parts, [c]), c) == parts
  {
    if |parts| == 1 {
      SplitNoSeparator(parts[0], c);
    } else {
      SplitJoin(parts[1..], c);
      SplitAtSeparator(parts[0], c, Join(parts[1..], [c]));
      assert [parts[0]] + parts[1..] == parts;
    }
  }
}
