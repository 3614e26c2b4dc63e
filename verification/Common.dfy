/**
 Definitions shared by every component: optional values, the token-lifetime constants, and Go's
 `strings.Split` with its inverse.
 */
module Common {

  datatype Option<+T> = None | Some(value: T) {
    predicate IsFailure() {
      None?
    }

    function PropagateFailure<U>(): Option<U>
      requires None?
    {
      None
    }

    function Extract(): T
      requires Some?
    {
      value
    }
  }

  /** Seconds; pkg/constants.go. */
  const DEFAULT_TOKEN_EXPIRATION: int := 86400
  const DEFAULT_MIN_TOKEN_EXPIRATION: int := 79200
  const MIN_TOKEN_EXPIRATION: int := 600

  /** The clamp applied to the command-line flag and to every annotation. */
  function ValidateMinTokenExpiration(expiration: int): (r: int)
    ensures r >= 600 && r >= expiration
    ensures r == expiration || r == 600
  {
    if expiration < MIN_TOKEN_EXPIRATION then MIN_TOKEN_EXPIRATION else expiration
  }

  /** `strings.Split` for a one-character separator: never empty, and no part contains the separator. */
  function Split(s: string, sep: char): (parts: seq<string>)
    ensures |parts| >= 1
    ensures forall p | p in parts :: sep !in p
  {
    if s == "" then [""]
    else
      var rest := Split(s[1..], sep);
      if s[0] == sep then [""] + rest else [[s[0]] + rest[0]] + rest[1..]
  }

  function Join(parts: seq<string>, sep: char): string
    requires |parts| >= 1
  {
    if |parts| == 1 then parts[0] else parts[0] + [sep] + Join(parts[1..], sep)
  }

  lemma {:induction false} JoinSplit(s: string, sep: char)
    ensures Join(Split(s, sep), sep) == s
  {
    if s != "" {
      JoinSplit(s[1..], sep);
      var rest := Split(s[1..], sep);
      if s[0] == sep {
        assert ([""] + rest)[1..] == rest;
      } else {
        var parts := [[s[0]] + rest[0]] + rest[1..];
        assert parts[1..] == rest[1..];
        if |rest| > 1 {
          assert Join(parts, sep) == [s[0]] + (rest[0] + [sep] + Join(rest[1..], sep));
        }
      }
      assert s == [s[0]] + s[1..];
    }
  }

  /** A prefix without separators sticks to the first part. */
  lemma {:induction false} SplitPrefix(a: string, rest: string, sep: char)
    requires sep !in a
    ensures Split(a + rest, sep) == [a + Split(rest, sep)[0]] + Split(rest, sep)[1..]
  {
    if a == "" {
      assert a + rest == rest;
      assert a + Split(rest, sep)[0] == Split(rest, sep)[0];
    } else {
      assert (a + rest)[1..] == a[1..] + rest;
      SplitPrefix(a[1..], rest, sep);
      assert a == [a[0]] + a[1..];
      assert [a[0]] + (a[1..] + Split(rest, sep)[0]) == a + Split(rest, sep)[0];
    }
  }

  /** A separator-free text followed by a separator becomes a part of its own. */
  lemma SplitCons(a: string, rest: string, sep: char)
    requires sep !in a
    ensures Split(a + [sep] + rest, sep) == [a] + Split(rest, sep)
  {
    assert a + [sep] + rest == a + ([sep] + rest);
    assert ([sep] + rest)[1..] == rest;
    SplitPrefix(a, [sep] + rest, sep);
    assert ([""] + Split(rest, sep))[1..] == Split(rest, sep);
    assert a + "" == a;
  }

  lemma SplitAtom(a: string, sep: char)
    requires sep !in a
    ensures Split(a, sep) == [a]
  {
    assert a + "" == a;
    SplitPrefix(a, "", sep);
  }

  /** Splitting undoes joining exactly when no part contains the separator. */
  lemma {:induction false} SplitJoin(parts: seq<string>, sep: char)
    requires |parts| >= 1
    ensures Split(Join(parts, sep), sep) == parts <==> forall p | p in parts :: sep !in p
  {
    if forall p | p in parts :: sep !in p {
      if |parts| == 1 {
        SplitAtom(parts[0], sep);
      } else {
        SplitJoin(parts[1..], sep);
        assert forall p | p in parts[1..] :: sep !in p;
        SplitCons(parts[0], Join(parts[1..], sep), sep);
      }
    }
  }
}
