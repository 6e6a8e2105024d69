/**
  The password-hash generator for the dashboard's login gate: the checks on
  the two password entries, the `$` to `$$` rewrite that Docker Compose needs
  in a `.env` file, and the line the operator is told to copy.
  bcrypt itself (hashing and checking) is a parameter.
*/
module PasswordHash {
  import opened Wrappers
  import opened Text

  /** The variable the dashboard reads its password hash from. */
  const EnvPrefix := "DASHBOARD_PASSWORD_HASH="

  /** Passwords shorter than this draw a warning, not a refusal. */
  const MinLength := 8

  /** `hashed.replace('$', '$$')`: every `$` doubled, every other character kept. */
  function Escape(h: string): (r: string)
    ensures |r| == |h| + multiset(h)['$']
    ensures multiset(r)['$'] == 2 * multiset(h)['$']
    decreases |h|
  {
    if h == [] then []
    else
      assert h == [h[0]] + h[1..];
      (if h[0] == '$' then "$$" else [h[0]]) + Escape(h[1..])
  }

  /**
    How Docker Compose reads a value from a `.env` file: `$$` stands for one
    `$`; a `$` that is not doubled starts a variable reference, which this
    model treats as a failure to read the value back literally.
  */
  function Unescape(s: string): (r: Option<string>)
    decreases |s|
  {
    if s == [] then Some([])
    else if s[0] != '$' then
      match Unescape(s[1..])
      case None => None
      case Some(t) => Some([s[0]] + t)
    else if |s| >= 2 && s[1] == '$' then
      match Unescape(s[2..])
      case None => None
      case Some(t) => Some("$" + t)
    else None
  }

  /** Reading the escaped hash back as Compose does gives the hash bcrypt produced. */
  lemma {:induction false} UnescapeEscape(h: string)
    ensures Unescape(Escape(h)) == Some(h)
    decreases |h|
  {
    if h != [] {
      UnescapeEscape(h[1..]);
      var e := Escape(h);
      if h[0] == '$' {
        assert e[2..] == Escape(h[1..]);
      } else {
        assert e[1..] == Escape(h[1..]);
      }
      assert h == [h[0]] + h[1..];
    }
  }

  /** The characters of `s` other than `$`, in order. */
  function WithoutDollars(s: string): (r: string)
    ensures '$' !in r
    decreases |s|
  {
    if s == [] then []
    else (if s[0] == '$' then [] else [s[0]]) + WithoutDollars(s[1..])
  }

  /** Escaping leaves every character other than `$` in place and in order. */
  lemma {:induction false} EscapeKeepsOtherCharacters(h: string)
    ensures WithoutDollars(Escape(h)) == WithoutDollars(h)
    decreases |h|
  {
    if h != [] {
      EscapeKeepsOtherCharacters(h[1..]);
      var e := Escape(h);
      WithoutDollarsAppend(e[..|e| - |Escape(h[1..])|], Escape(h[1..]));
      assert e == e[..|e| - |Escape(h[1..])|] + Escape(h[1..]);
    }
  }

  lemma {:induction false} WithoutDollarsAppend(a: string, b: string)
    ensures WithoutDollars(a + b) == WithoutDollars(a) + WithoutDollars(b)
    decreases |a|
  {
    if a != [] {
      assert (a + b)[1..] == a[1..] + b;
      WithoutDollarsAppend(a[1..], b);
    } else {
      assert a + b == b;
    }
  }

  /** `s[i..j]` is a whole run of `$`: not extendable on either side. */
  predicate MaximalRun(s: string, i: int, j: int)
  {
    && 0 <= i <= j <= |s|
    && (forall k :: i <= k < j ==> s[k] == '$')
    && (i == 0 || s[i - 1] != '$')
    && (j == |s| || s[j] != '$')
  }

  /** `s` splits into `$$` pairs and single characters other than `$`. */
  predicate Paired(s: string)
    decreases |s|
  {
    if s == [] then true
    else if s[0] != '$' then Paired(s[1..])
    else |s| >= 2 && s[1] == '$' && Paired(s[2..])
  }

  lemma {:induction false} EscapeIsPaired(h: string)
    ensures Paired(Escape(h))
    decreases |h|
  {
    if h != [] {
      EscapeIsPaired(h[1..]);
      var e := Escape(h);
      if h[0] == '$' {
        assert e[2..] == Escape(h[1..]);
      } else {
        assert e[1..] == Escape(h[1..]);
      }
    }
  }

  lemma {:induction false} PairedRunsEven(s: string, i: int, j: int)
    requires Paired(s) && MaximalRun(s, i, j)
    ensures (j - i) % 2 == 0
    decreases |s|
  {
    if s == [] || i == j {
    } else if s[0] != '$' {
      assert i > 0;
      PairedRunsEven(s[1..], i - 1, j - 1);
    } else if i == 0 {
      assert j >= 2;
      PairedRunsEven(s[2..], 0, j - 2);
    } else {
      assert i >= 3;
      PairedRunsEven(s[2..], i - 2, j - 2);
    }
  }

  /** In the escaped hash every whole run of `$` has even length. */
  lemma EscapedRunsEven(h: string, i: int, j: int)
    requires MaximalRun(Escape(h), i, j)
    ensures (j - i) % 2 == 0
  {
    EscapeIsPaired(h);
    PairedRunsEven(Escape(h), i, j);
  }

  /** How one run of the generator ends; every outcome but the last exits with status 1. */
  datatype Session =
    | EmptyPassword
      // refused before the confirmation prompt is shown
    | Mismatch(weak: bool)
      // the two entries differ; no hash is generated
    | Generated(weak: bool, envLine: string, verified: bool)
      // the line to copy into `.env`, and whether bcrypt accepted the password against the hash

  function ExitStatus(r: Session): nat
  {
    if r.Generated? && r.verified then 0 else 1
  }

  /**
    The flow of `main`: `password1` is the first entry, `password2` the
    confirmation (read only when the first entry is not empty), `hash` and
    `verify` stand for bcrypt's hashing and checking.
  */
  function Run(password1: string, password2: string,
               hash: string -> string, verify: (string, string) -> bool): (r: Session)
    ensures r.EmptyPassword? <==> password1 == []
    ensures r.Mismatch? <==> password1 != [] && password1 != password2
    ensures r.Generated? <==> password1 != [] && password1 == password2
    ensures !r.EmptyPassword? ==> (r.weak <==> |password1| < MinLength)
    ensures r.Generated? ==>
              StartsWith(r.envLine, EnvPrefix) && Unescape(r.envLine[|EnvPrefix|..]) == Some(hash(password1))
    ensures r.Generated? ==> r.verified == verify(password1, hash(password1))
    ensures ExitStatus(r) == 0 <==> password1 != [] && password1 == password2 && verify(password1, hash(password1))
  {
    if password1 == [] then EmptyPassword
    else
      var weak := |password1| < MinLength;
      if password1 != password2 then Mismatch(weak)
      else
        var hashed := hash(password1);
        var line := EnvPrefix + Escape(hashed);
        UnescapeEscape(hashed);
        assert line[|EnvPrefix|..] == Escape(hashed);
        Generated(weak, line, verify(password1, hashed))
  }

  /** The line printed for the operator is the variable name followed by the escaped hash. */
  lemma EnvLineShape(password: string, hash: string -> string, verify: (string, string) -> bool)
    requires password != []
    ensures Run(password, password, hash, verify).Generated?
    ensures Run(password, password, hash, verify).envLine == EnvPrefix + Escape(hash(password))
  {
  }
}
