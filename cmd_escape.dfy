/**
 * Escaping the initialization script's path for `cmd.exe`: each caret is doubled, then each
 * ampersand is preceded by a caret, so that neither acts as a metacharacter.
 */
module CmdEscape {

  /** `str::replace(c, with)`: every occurrence of `c` replaced by `with`. */
  function ReplaceChar(s: string, c: char, with: string): (r: string)
    ensures c !in s ==> r == s
    decreases |s|
  {
    if s == [] then [] else (if s[0] == c then with else [s[0]]) + ReplaceChar(s[1..], c, with)
  }

  /** The path as written into the command line: `^` → `^^` first, then `&` → `^&`. */
  function Escape(path: string): string {
    ReplaceChar(ReplaceChar(path, '^', "^^"), '&', "^&")
  }

  /**
   * How `cmd.exe` reads a caret outside double quotes: it makes the character after it
   * literal and disappears. (Inside double quotes a caret is literal; that is not modelled.)
   */
  function Unescape(s: string): string
    decreases |s|
  {
    if s == [] then []
    else if s[0] == '^' && |s| >= 2 then [s[1]] + Unescape(s[2..])
    else [s[0]] + Unescape(s[1..])
  }

  /** Whether `cmd.exe` would see an ampersand not protected by a caret (a command separator). */
  predicate HasBareAmpersand(s: string)
    decreases |s|
  {
    if s == [] then false
    else if s[0] == '^' && |s| >= 2 then HasBareAmpersand(s[2..])
    else s[0] == '&' || HasBareAmpersand(s[1..])
  }

  /** The escape of one character. */
  function EscapeChar(c: char): string {
    if c == '^' then "^^" else if c == '&' then "^&" else [c]
  }

  lemma {:induction false} ReplaceCharAppend(a: string, b: string, c: char, with: string)
    ensures ReplaceChar(a + b, c, with) == ReplaceChar(a, c, with) + ReplaceChar(b, c, with)
    decreases |a|
  {
    if a != [] {
      assert (a + b)[0] == a[0] && (a + b)[1..] == a[1..] + b;
      ReplaceCharAppend(a[1..], b, c, with);
      var head := if a[0] == c then with else [a[0]];
      calc {
        ReplaceChar(a + b, c, with);
        head + ReplaceChar(a[1..] + b, c, with);
        head + (ReplaceChar(a[1..], c, with) + ReplaceChar(b, c, with));
        (head + ReplaceChar(a[1..], c, with)) + ReplaceChar(b, c, with);
      }
    } else {
      assert a + b == b;
    }
  }

  /** The two passes escape character by character: the carets the second pass adds are not doubled. */
  lemma {:induction false} EscapeCons(path: string)
    requires path != []
    ensures Escape(path) == EscapeChar(path[0]) + Escape(path[1..])
  {
    var first := ReplaceChar(path, '^', "^^");
    assert first == (if path[0] == '^' then "^^" else [path[0]]) + ReplaceChar(path[1..], '^', "^^");
    ReplaceCharAppend(if path[0] == '^' then "^^" else [path[0]], ReplaceChar(path[1..], '^', "^^"), '&', "^&");
    if path[0] == '^' {
      assert ReplaceChar("^^", '&', "^&") == "^^" by {
        assert "^^"[1..] == "^";
        assert "^"[1..] == [];
      }
    } else {
      assert [path[0]][1..] == [];
    }
  }

  /** What `cmd.exe` reads back from the escaped path, outside double quotes, is the path itself. */
  lemma {:induction false} UnescapeEscape(path: string)
    ensures Unescape(Escape(path)) == path
    decreases |path|
  {
    if path != [] {
      EscapeCons(path);
      UnescapeEscape(path[1..]);
      var rest := Escape(path[1..]);
      var e := Escape(path);
      if path[0] == '^' || path[0] == '&' {
        assert e == [ '^', path[0] ] + rest;
        assert e[2..] == rest;
      } else {
        assert e == [path[0]] + rest;
        assert e[1..] == rest;
      }
    }
  }

  /** No ampersand of the escaped path can end the command. */
  lemma {:induction false} EscapeHasNoBareAmpersand(path: string)
    ensures !HasBareAmpersand(Escape(path))
    decreases |path|
  {
    if path != [] {
      EscapeCons(path);
      EscapeHasNoBareAmpersand(path[1..]);
      var rest := Escape(path[1..]);
      var e := Escape(path);
      if path[0] == '^' || path[0] == '&' {
        assert e == [ '^', path[0] ] + rest;
        assert e[2..] == rest;
      } else {
        assert e == [path[0]] + rest;
        assert e[1..] == rest;
      }
    }
  }

  /** A path with neither `^` nor `&` is written as it is. */
  lemma {:induction false} EscapeKeepsPlainPath(path: string)
    requires '^' !in path && '&' !in path
    ensures Escape(path) == path
    decreases |path|
  {
    if path != [] {
      EscapeCons(path);
      assert path[0] in path;
      assert forall i :: 1 <= i < |path| ==> path[i] in path;
      EscapeKeepsPlainPath(path[1..]);
      assert path == [path[0]] + path[1..];
    }
  }
}
