/** The few JavaScript value semantics the screens rely on: `null`, the
    whitespace class `\s` (which `String.prototype.trim` strips as well),
    truthiness of a string, and `.length` counted in UTF-16 code units. */
module JsValues {

  /** A value that may be JavaScript `null`. */
  datatype Option<+T> = None | Some(value: T)

  /** ECMAScript WhiteSpace and LineTerminator code points: the characters
      matched by `\s` in a regular expression and removed by `trim()`. */
  predicate IsSpace(c: char)
  {
    || c == '\t' || c == '\n' || c == '\U{000B}' || c == '\U{000C}' || c == '\r'
    || c == ' ' || c == '\U{00A0}' || c == '\U{1680}'
    || ('\U{2000}' <= c <= '\U{200A}')
    || c == '\U{2028}' || c == '\U{2029}' || c == '\U{202F}' || c == '\U{205F}'
    || c == '\U{3000}' || c == '\U{FEFF}'
  }

  /** The whitespace class, seen from outside: in ASCII it is exactly space
      and tab through carriage return; beyond ASCII it stays in the basic
      plane; it never holds the `@` or `.` the email check splits on. */
  lemma SpaceClass(c: char)
    ensures c as int < 0x80 ==> (IsSpace(c) <==> c == ' ' || '\t' <= c <= '\r')
    ensures IsSpace(c) ==> c as int < 0x1_0000 && c != '@' && c != '.'
  {
  }

  predicate AllSpace(s: string)
  {
    forall k :: 0 <= k < |s| ==> IsSpace(s[k])
  }

  /** A string is truthy exactly when it is not empty. */
  predicate Truthy(s: string)
  {
    s != ""
  }

  /** Number of leading whitespace characters. */
  function LeadingSpace(s: string): (n: nat)
    ensures n <= |s|
    ensures AllSpace(s[..n])
    ensures n < |s| ==> !IsSpace(s[n])
  {
    if |s| == 0 || !IsSpace(s[0]) then 0
    else
      var m := LeadingSpace(s[1..]);
      assert s[1..][..m] == s[1..m + 1];
      1 + m
  }

  /** Number of trailing whitespace characters. */
  function TrailingSpace(s: string): (n: nat)
    ensures n <= |s|
    ensures AllSpace(s[|s| - n..])
    ensures n < |s| ==> !IsSpace(s[|s| - 1 - n])
  {
    if |s| == 0 || !IsSpace(s[|s| - 1]) then 0
    else
      var m := TrailingSpace(s[..|s| - 1]);
      assert s[..|s| - 1][|s| - 1 - m..] == s[|s| - 1 - m..|s| - 1];
      1 + m
  }

  /** `String.prototype.trim`: the slice left after removing whitespace at
      both ends. */
  function Trim(s: string): (r: string)
    ensures exists i, j :: 0 <= i <= j <= |s| && r == s[i..j]
                           && AllSpace(s[..i]) && AllSpace(s[j..])
    ensures r != "" ==> !IsSpace(r[0]) && !IsSpace(r[|r| - 1])
  {
    var i := LeadingSpace(s);
    var t := s[i..];
    var n := TrailingSpace(t);
    var j := |s| - n;
    assert t[|t| - n..] == s[j..];
    assert t[..|t| - n] == s[i..j];
    assert i < j ==> s[i..j][0] == s[i] && s[i..j][j - i - 1] == t[|t| - 1 - n];
    s[i..j]
  }

  /** `.length` of a JavaScript string: code points above U+FFFF are stored
      as a surrogate pair and count twice. */
  function Utf16Length(s: string): (n: nat)
    ensures |s| <= n <= 2 * |s|
  {
    if |s| == 0 then 0
    else (if s[0] as int >= 0x1_0000 then 2 else 1) + Utf16Length(s[1..])
  }

  /** Characters that need no surrogate pair. */
  predicate InBasicPlane(s: string)
  {
    forall k :: 0 <= k < |s| ==> s[k] as int < 0x1_0000
  }

  /** Characters that each need a surrogate pair. */
  predicate OutsideBasicPlane(s: string)
  {
    forall k :: 0 <= k < |s| ==> s[k] as int >= 0x1_0000
  }
  lemma {:induction false} BlankIsAllLeadingSpace(s: string)
    requires AllSpace(s)
    ensures LeadingSpace(s) == |s|
  {
    if |s| > 0 {
      assert IsSpace(s[0]);
      assert AllSpace(s[1..]) by {
        forall k | 0 <= k < |s| - 1 ensures IsSpace(s[1..][k]) {
          assert s[1..][k] == s[k + 1];
        }
      }
      BlankIsAllLeadingSpace(s[1..]);
    }
  }

  /** `trim()` yields the empty string exactly for blank input. */
  lemma TrimEmptyIffBlank(s: string)
    ensures Trim(s) == "" <==> AllSpace(s)
  {
    if AllSpace(s) {
      BlankIsAllLeadingSpace(s);
      assert s[|s|..] == "";
    } else {
      var i, j :| 0 <= i <= j <= |s| && Trim(s) == s[i..j]
                  && AllSpace(s[..i]) && AllSpace(s[j..]);
      assert AllSpace(s[..i]) && AllSpace(s[j..]);
      if i == j {
        forall k | 0 <= k < |s| ensures IsSpace(s[k]) {
          if k < i {
            assert s[k] == s[..i][k] && IsSpace(s[..i][k]);
          } else {
            assert s[k] == s[j..][k - j] && IsSpace(s[j..][k - j]);
          }
        }
      }
    }
  }

  /** Trimming twice is trimming once. */
  lemma TrimIdempotent(s: string)
    ensures Trim(Trim(s)) == Trim(s)
  {
    var r := Trim(s);
    if r != "" {
      assert LeadingSpace(r) == 0;
      assert TrailingSpace(r) == 0;
      assert r[0..|r|] == r;
    }
  }

  /** For text without surrogate pairs `.length` is the character count. */
  lemma {:induction false} BasicPlaneLength(s: string)
    requires InBasicPlane(s)
    ensures Utf16Length(s) == |s|
  {
    if |s| > 0 {
      assert InBasicPlane(s[1..]) by {
        forall k | 0 <= k < |s| - 1 ensures s[1..][k] as int < 0x1_0000 {
          assert s[1..][k] == s[k + 1];
        }
      }
      BasicPlaneLength(s[1..]);
    }
  }

  /** For text made only of characters above U+FFFF, `.length` is twice
      the character count. */
  lemma {:induction false} SupplementaryLength(s: string)
    requires OutsideBasicPlane(s)
    ensures Utf16Length(s) == 2 * |s|
  {
    if |s| > 0 {
      assert OutsideBasicPlane(s[1..]) by {
        forall k | 0 <= k < |s| - 1 ensures s[1..][k] as int >= 0x1_0000 {
          assert s[1..][k] == s[k + 1];
        }
      }
      SupplementaryLength(s[1..]);
    }
  }
}
