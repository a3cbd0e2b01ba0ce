/** Option strings in which a backslash protects the next character from ending a field. */
module Escapes {
  import opened Text

  /** Splitting at separators that no backslash protects. The escapes stay. */
  function SplitPlain(s: string, sep: char): (parts: seq<string>)
    ensures |parts| > 0
  {
    if s == "" then [""]
    else if s[0] == '\\' && |s| > 1 then
      var rest := SplitPlain(s[2..], sep);
      [s[..2] + rest[0]] + rest[1..]
    else
      var rest := SplitPlain(s[1..], sep);
      if s[0] == sep then [""] + rest else [[s[0]] + rest[0]] + rest[1..]
  }

  /** No separator is unprotected and no backslash is left over at the end. */
  predicate Sealed(s: string, sep: char) {
    if s == "" then true
    else if s[0] == '\\' then |s| > 1 && Sealed(s[2..], sep)
    else s[0] != sep && Sealed(s[1..], sep)
  }

  lemma {:induction false} SealedConcat(a: string, b: string, sep: char)
    requires Sealed(a, sep) && Sealed(b, sep)
    ensures Sealed(a + b, sep)
  {
    if a == "" {
      assert a + b == b;
    } else if a[0] == '\\' {
      assert (a + b)[2..] == a[2..] + b;
      SealedConcat(a[2..], b, sep);
    } else {
      assert (a + b)[1..] == a[1..] + b;
      SealedConcat(a[1..], b, sep);
    }
  }

  lemma {:induction false} CleanIsSealed(s: string, sep: char)
    requires '\\' !in s && sep !in s
    ensures Sealed(s, sep)
  {
    if s != "" {
      CleanIsSealed(s[1..], sep);
    }
  }

  lemma {:induction false} SplitSealed(s: string, sep: char)
    requires Sealed(s, sep)
    ensures SplitPlain(s, sep) == [s]
    decreases |s|
  {
    if s != "" {
      if s[0] == '\\' {
        SplitSealed(s[2..], sep);
        assert s[..2] + s[2..] == s;
      } else {
        SplitSealed(s[1..], sep);
        assert [s[0]] + s[1..] == s;
      }
    }
  }

  lemma {:induction false} SplitBehindSealed(a: string, b: string, sep: char)
    requires Sealed(a, sep) && sep != '\\'
    ensures SplitPlain(a + [sep] + b, sep) == [a] + SplitPlain(b, sep)
    decreases |a|
  {
    var s := a + [sep] + b;
    if a == "" {
      assert s[1..] == b;
    } else if a[0] == '\\' {
      assert s[2..] == a[2..] + [sep] + b && s[..2] == a[..2];
      SplitBehindSealed(a[2..], b, sep);
      assert a[..2] + a[2..] == a;
    } else {
      assert s[1..] == a[1..] + [sep] + b;
      SplitBehindSealed(a[1..], b, sep);
      assert [a[0]] + a[1..] == a;
    }
  }

  ghost predicate AllSealed(parts: seq<string>, sep: char) {
    forall p | p in parts :: Sealed(p, sep)
  }

  lemma {:induction false} SplitPlainJoin(parts: seq<string>, sep: char)
    requires parts != [] && AllSealed(parts, sep) && sep != '\\'
    ensures SplitPlain(Join(parts, sep), sep) == parts
  {
    SplitSealed(parts[0], sep);
    if |parts| > 1 {
      SplitBehindSealed(parts[0], Join(parts[1..], sep), sep);
      SplitPlainJoin(parts[1..], sep);
    }
  }

  lemma {:induction false} JoinIsSealed(parts: seq<string>, glue: char, sep: char)
    requires AllSealed(parts, sep) && glue != sep && glue != '\\'
    ensures Sealed(Join(parts, glue), sep)
  {
    if |parts| == 1 {
      assert parts[0] in parts;
    } else if |parts| > 1 {
      JoinIsSealed(parts[1..], glue, sep);
      assert Sealed([glue], sep);
      SealedConcat(parts[0], [glue], sep);
      SealedConcat(parts[0] + [glue], Join(parts[1..], glue), sep);
    }
  }
}
