/**
 Shared vocabulary for the FounderFlow model: optional values (JavaScript
 `null`/`undefined`), results of calls that may fail with a message, toasts,
 JavaScript truthiness of strings, and the string helpers the pages use
 (`String.prototype.split`, `join`, `slice`, `toUpperCase`).
 */
module Common {

  /** A value that may be `null`/`undefined` in the source. */
  datatype Option<+T> = None | Some(value: T) {
    function GetOr(default: T): T {
      match this
      case Some(v) => v
      case None => default
    }
  }

  /** The outcome of a call that either answers or throws/returns an error message. */
  datatype Result<+T> = Ok(value: T) | Err(message: string)

  /** A toast notification as the pages show it. */
  datatype Toast = Toast(title: string, description: string, destructive: bool)

  /** JavaScript truthiness of an optional string: present and non-empty. */
  predicate Truthy(s: Option<string>) {
    s.Some? && s.value != ""
  }

  /** `s || fallback` for an optional string. */
  function OrElse(s: Option<string>, fallback: string): (r: string)
    ensures Truthy(s) ==> r == s.value
    ensures !Truthy(s) ==> r == fallback
    ensures r == "" ==> fallback == ""
  {
    if Truthy(s) then s.value else fallback
  }

  /** `s.slice(0, n)`: the first `n` characters, or all of them when shorter. */
  function Take(s: string, n: nat): (r: string)
    ensures |r| <= n && |r| <= |s|
    ensures |s| >= n ==> |r| == n
    ensures r <= s
  {
    if |s| <= n then s else s[..n]
  }

  /** `toUpperCase` on one character; only ASCII letters are mapped. */
  function UpperChar(c: char): char {
    if 'a' <= c <= 'z' then (c as int - 32) as char else c
  }

  function Upper(s: string): (r: string)
    ensures |r| == |s|
    ensures forall i :: 0 <= i < |s| ==> r[i] == UpperChar(s[i])
  {
    seq(|s|, i requires 0 <= i < |s| => UpperChar(s[i]))
  }

  /** Upper-casing commutes with taking a prefix. */
  lemma UpperTake(s: string, n: nat)
    ensures Upper(Take(s, n)) == Take(Upper(s), n)
  {
  }

  /** `s.split(sep)` for a one-character separator: every occurrence of `sep`
      starts a new piece, so adjacent separators yield empty pieces. */
  function Split(s: string, sep: char): (parts: seq<string>)
    ensures |parts| >= 1
    decreases |s|
  {
    if |s| == 0 then [""]
    else
      var rest := Split(s[1..], sep);
      if s[0] == sep then [""] + rest
      else [[s[0]] + rest[0]] + rest[1..]
  }

  /** `parts.join(sep)`. */
  function Join(parts: seq<string>, sep: char): string
    decreases |parts|
  {
    if |parts| == 0 then ""
    else if |parts| == 1 then parts[0]
    else parts[0] + [sep] + Join(parts[1..], sep)
  }

  /** Splitting loses nothing: joining the pieces restores the string. */
  lemma {:induction false} JoinSplit(s: string, sep: char)
    ensures Join(Split(s, sep), sep) == s
    decreases |s|
  {
    if |s| == 0 {
    } else {
      var rest := Split(s[1..], sep);
      JoinSplit(s[1..], sep);
      if s[0] == sep {
        assert ([""] + rest)[1..] == rest;
        assert s == [sep] + s[1..];
      } else {
        var parts := [[s[0]] + rest[0]] + rest[1..];
        if |rest| == 1 {
          assert Join(rest, sep) == rest[0];
        } else {
          assert parts[1..] == rest[1..];
          assert Join(rest, sep) == rest[0] + [sep] + Join(rest[1..], sep);
        }
        assert s == [s[0]] + s[1..];
      }
    }
  }

  /** A string without the separator is a single piece. */
  lemma {:induction false} SplitNoSep(s: string, sep: char)
    requires sep !in s
    ensures Split(s, sep) == [s]
    decreases |s|
  {
    if |s| > 0 {
      SplitNoSep(s[1..], sep);
      assert s == [s[0]] + s[1..];
    }
  }

  /** One unfolding of `Split` on a string given as head and tail. */
  lemma SplitCons(c: char, t: string, sep: char)
    ensures Split([c] + t, sep)
            == if c == sep then [""] + Split(t, sep) else [[c] + Split(t, sep)[0]] + Split(t, sep)[1..]
  {
    assert ([c] + t)[0] == c;
    assert ([c] + t)[1..] == t;
  }

  /** No piece of a split holds the separator. */
  lemma {:induction false} SplitPiecesLackSep(s: string, sep: char)
    ensures forall i :: 0 <= i < |Split(s, sep)| ==> sep !in Split(s, sep)[i]
    decreases |s|
  {
    if |s| > 0 {
      SplitPiecesLackSep(s[1..], sep);
      var rest := Split(s[1..], sep);
      if s[0] != sep {
        var parts := Split(s, sep);
        assert parts[0] == [s[0]] + rest[0];
        forall i | 1 <= i < |parts|
          ensures sep !in parts[i]
        {
          assert parts[i] == rest[i];
        }
      }
    }
  }

  /** The step of `SplitAppend` when the leading character is the separator. */
  lemma SplitAppendSepHead(t: string, b: string, sep: char)
    requires Split(t + [sep] + b, sep) == Split(t, sep) + Split(b, sep)
    ensures Split([sep] + (t + [sep] + b), sep) == Split([sep] + t, sep) + Split(b, sep)
  {
    SplitCons(sep, t + [sep] + b, sep);
    SplitCons(sep, t, sep);
    var rt := Split(t, sep);
    var rb := Split(b, sep);
    assert [""] + (rt + rb) == ([""] + rt) + rb;
  }

  /** The step of `SplitAppend` when the leading character is an ordinary one. */
  lemma SplitAppendCharHead(c: char, t: string, b: string, sep: char)
    requires c != sep
    requires Split(t + [sep] + b, sep) == Split(t, sep) + Split(b, sep)
    ensures Split([c] + (t + [sep] + b), sep) == Split([c] + t, sep) + Split(b, sep)
  {
    SplitCons(c, t + [sep] + b, sep);
    SplitCons(c, t, sep);
    var rt := Split(t, sep);
    var rb := Split(b, sep);
    var head := [c] + rt[0];
    assert (rt + rb)[0] == rt[0];
    assert (rt + rb)[1..] == rt[1..] + rb;
    assert [head] + (rt[1..] + rb) == ([head] + rt[1..]) + rb;
  }

  /** A separator between two strings splits them independently. */
  lemma {:induction false} SplitAppend(a: string, b: string, sep: char)
    ensures Split(a + [sep] + b, sep) == Split(a, sep) + Split(b, sep)
    decreases |a|
  {
    if |a| == 0 {
      assert a + [sep] + b == [sep] + b;
      SplitCons(sep, b, sep);
    } else {
      var c, t := a[0], a[1..];
      SplitAppend(t, b, sep);
      if c == sep {
        SplitAppendSepHead(t, b, sep);
      } else {
        SplitAppendCharHead(c, t, b, sep);
      }
      assert a == [c] + t;
      assert a + [sep] + b == [c] + (t + [sep] + b);
    }
  }

  /** The last piece of `s.split(sep)` (what `.pop()` returns). */
  function LastPiece(s: string, sep: char): (r: string)
    ensures sep !in r
  {
    var parts := Split(s, sep);
    SplitPiecesLackSep(s, sep);
    parts[|parts| - 1]
  }

  /** A string holding the separator splits into at least two pieces. */
  lemma SeparatorGivesTwoPieces(s: string, sep: char)
    requires sep in s
    ensures |Split(s, sep)| >= 2
  {
    JoinSplit(s, sep);
  }

  /** Dropping the first character keeps the last piece when a separator
      remains from that character on. */
  lemma LastPieceTail(s: string, sep: char)
    requires |s| > 0 && (s[0] == sep || sep in s[1..])
    ensures LastPiece(s, sep) == LastPiece(s[1..], sep)
  {
    var rest := Split(s[1..], sep);
    if s[0] != sep {
      SeparatorGivesTwoPieces(s[1..], sep);
      assert Split(s, sep)[|Split(s, sep)| - 1] == rest[|rest| - 1];
    } else {
      assert Split(s, sep)[|Split(s, sep)| - 1] == rest[|rest| - 1];
    }
  }

  /** The last piece is the text after the last separator, or all of `s`
      when it has no separator. */
  lemma {:induction false} LastPieceIsSuffix(s: string, sep: char)
    ensures var r := LastPiece(s, sep);
      && |r| <= |s|
      && r == s[|s| - |r|..]
      && (sep in s ==> |r| < |s| && s[|s| - |r| - 1] == sep)
      && (sep !in s ==> r == s)
    decreases |s|
  {
    if sep !in s {
      SplitNoSep(s, sep);
    } else {
      var t := s[1..];
      LastPieceTail(s, sep);
      var r := LastPiece(t, sep);
      if sep in t {
        LastPieceIsSuffix(t, sep);
        assert s[|s| - |r|..] == t[|t| - |r|..];
        assert s[|s| - |r| - 1] == t[|t| - |r| - 1];
      } else {
        SplitNoSep(t, sep);
        assert r == t;
        assert s[|s| - |r|..] == t;
      }
    }
  }
}
