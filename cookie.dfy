/**
 * The cookie lookup of the chat page: the value of the first `name=value` pair of a
 * `document.cookie` string, decoded. The browser's cookie string is a parameter, and
 * `decodeURIComponent` is a parameter `decode` that yields `None` where the JavaScript
 * function throws a `URIError`.
 */
module Cookies {
  import opened Wrappers

  /** The exception `decodeURIComponent` throws on a malformed escape. */
  datatype DecodeError = UriError

  /** The characters `String.prototype.trim` removes: white space and line terminators. */
  predicate IsWhitespace(c: char) {
    || c == '\U{0009}' || c == '\U{000B}' || c == '\U{000C}' || c == ' ' || c == '\U{00A0}' || c == '\U{FEFF}'
    || c == '\U{1680}' || ('\U{2000}' <= c <= '\U{200A}') || c == '\U{202F}' || c == '\U{205F}' || c == '\U{3000}'
    || c == '\U{000A}' || c == '\U{000D}' || c == '\U{2028}' || c == '\U{2029}'
  }

  function TrimStart(s: string): (t: string)
    ensures t == [] || !IsWhitespace(t[0])
  {
    if s != [] && IsWhitespace(s[0]) then TrimStart(s[1..]) else s
  }

  function TrimEnd(s: string): (t: string)
    ensures t == [] || !IsWhitespace(t[|t| - 1])
  {
    if s != [] && IsWhitespace(s[|s| - 1]) then TrimEnd(s[..|s| - 1]) else s
  }

  /** `s.trim()`: `s` without its leading and trailing white space. */
  function Trim(s: string): (t: string)
    ensures t == [] || (!IsWhitespace(t[0]) && !IsWhitespace(t[|t| - 1]))
  {
    TrimEndSlice(TrimStart(s));
    TrimEnd(TrimStart(s))
  }

  /** Trimming the start drops a prefix, and that prefix is all white space. */
  lemma {:induction false} TrimStartSlice(s: string)
    ensures |TrimStart(s)| <= |s| && TrimStart(s) == s[|s| - |TrimStart(s)|..]
    ensures forall k :: 0 <= k < |s| - |TrimStart(s)| ==> IsWhitespace(s[k])
  {
    if s != [] && IsWhitespace(s[0]) {
      var rest := s[1..];
      TrimStartSlice(rest);
      forall k | 0 <= k < |s| - |TrimStart(s)| ensures IsWhitespace(s[k]) {
        if k > 0 {
          assert s[k] == rest[k - 1];
        }
      }
    }
  }

  /** Trimming the end drops a suffix, and that suffix is all white space. */
  lemma {:induction false} TrimEndSlice(s: string)
    ensures |TrimEnd(s)| <= |s| && TrimEnd(s) == s[..|TrimEnd(s)|]
    ensures forall k :: |TrimEnd(s)| <= k < |s| ==> IsWhitespace(s[k])
  {
    if s != [] && IsWhitespace(s[|s| - 1]) {
      var rest := s[..|s| - 1];
      TrimEndSlice(rest);
      forall k | |TrimEnd(s)| <= k < |s| ensures IsWhitespace(s[k]) {
        if k < |s| - 1 {
          assert s[k] == rest[k];
        }
      }
    }
  }

  /** A prefix of a suffix is a slice. */
  lemma SliceOfSuffix(s: string, a: int, n: int)
    requires 0 <= a <= |s| && 0 <= n <= |s| - a
    ensures s[a..][..n] == s[a..a + n]
  {
  }

  /**
   * The trimmed string is a slice of the original, and everything cut off before and
   * after it is white space.
   */
  lemma {:induction false} TrimIsSlice(s: string)
    ensures exists i, j ::
              && 0 <= i <= j <= |s| && Trim(s) == s[i..j]
              && (forall k :: 0 <= k < i ==> IsWhitespace(s[k]))
              && (forall k :: j <= k < |s| ==> IsWhitespace(s[k]))
  {
    var u := TrimStart(s);
    var t := TrimEnd(u);
    TrimStartSlice(s);
    TrimEndSlice(u);
    var a := |s| - |u|;
    var b := a + |t|;
    SliceOfSuffix(s, a, |t|);
    forall k | b <= k < |s| ensures IsWhitespace(s[k]) {
      assert s[k] == u[k - a];
    }
    assert 0 <= a <= b <= |s| && Trim(s) == s[a..b];
  }

  /** A string with no white space at either end is its own trim. */
  lemma {:induction false} TrimOfTrimmed(s: string)
    requires s == [] || (!IsWhitespace(s[0]) && !IsWhitespace(s[|s| - 1]))
    ensures Trim(s) == s
  {
  }

  /** Trimming twice is trimming once. */
  lemma TrimIdempotent(s: string)
    ensures Trim(Trim(s)) == Trim(s)
  {
    TrimOfTrimmed(Trim(s));
  }

  /** The position of the first `;` in `s`, or `|s|` when there is none. */
  function SeparatorAt(s: string): (i: nat)
    ensures i <= |s|
    ensures forall k :: 0 <= k < i ==> s[k] != ';'
    ensures i < |s| ==> s[i] == ';'
  {
    if s == [] || s[0] == ';' then 0 else 1 + SeparatorAt(s[1..])
  }

  /** `s.split(';')`: the pieces between the separators; one piece when there is none. */
  function Split(s: string): (pieces: seq<string>)
    ensures |pieces| >= 1
    ensures forall k :: 0 <= k < |pieces| ==> ';' !in pieces[k]
    decreases |s|
  {
    var i := SeparatorAt(s);
    if i == |s| then [s] else [s[..i]] + Split(s[i + 1..])
  }

  /** `pieces.join(';')`. */
  function Join(pieces: seq<string>): string
    requires |pieces| >= 1
  {
    if |pieces| == 1 then pieces[0] else pieces[0] + ";" + Join(pieces[1..])
  }

  lemma JoinCons(head: string, pieces: seq<string>)
    requires |pieces| >= 1
    ensures Join([head] + pieces) == head + ";" + Join(pieces)
  {
    assert ([head] + pieces)[1..] == pieces;
  }

  lemma SplitAround(s: string, i: int)
    requires 0 <= i < |s| && s[i] == ';'
    ensures s == s[..i] + ";" + s[i + 1..]
  {
  }

  /** Splitting loses nothing: joining the pieces with `;` gives the string back. */
  lemma {:induction false} JoinSplit(s: string)
    ensures Join(Split(s)) == s
    decreases |s|
  {
    var i := SeparatorAt(s);
    if i < |s| {
      var head, tail := s[..i], s[i + 1..];
      JoinSplit(tail);
      JoinCons(head, Split(tail));
      SplitAround(s, i);
    }
  }

  /** `s.substring(start, end)`: both ends clamped to the string, swapped when out of order. */
  function Substring(s: string, start: int, end: int): (t: string)
    ensures |t| <= |s|
    ensures 0 <= start <= end <= |s| ==> t == s[start..end]
    ensures 0 <= end <= start <= |s| ==> t == s[end..start]
    ensures |s| <= start && |s| <= end ==> t == []
    ensures start <= 0 && end <= 0 ==> t == []
  {
    var a := if start < 0 then 0 else if start > |s| then |s| else start;
    var b := if end < 0 then 0 else if end > |s| then |s| else end;
    if a <= b then s[a..b] else s[b..a]
  }

  /**
   * `cookie.substring(0, name.length + 1) === name + '='`: the piece begins with the
   * name followed by `=`.
   */
  function Matches(cookie: string, name: string): (b: bool)
    ensures b <==> |name| + 1 <= |cookie| && cookie[..|name| + 1] == name + "="
  {
    Substring(cookie, 0, |name| + 1) == name + "="
  }

  /** No piece of `pieces` matches once trimmed. */
  predicate NoneMatches(pieces: seq<string>, name: string) {
    forall j :: 0 <= j < |pieces| ==> !Matches(Trim(pieces[j]), name)
  }

  /**
   * The raw value of the first of `pieces` that matches once trimmed; none exactly
   * when no trimmed piece matches.
   */
  function FirstMatch(pieces: seq<string>, name: string): (r: Option<string>)
    ensures r.None? <==> NoneMatches(pieces, name)
  {
    if pieces == [] then None
    else if Matches(Trim(pieces[0]), name) then Some(Substring(Trim(pieces[0]), |name| + 1, |Trim(pieces[0])|))
    else
      assert forall j :: 1 <= j < |pieces| ==> pieces[j] == pieces[1..][j - 1];
      FirstMatch(pieces[1..], name)
  }

  /**
   * The raw value `getCookie` decodes: none for an empty cookie string, and otherwise
   * none exactly when no trimmed `;`-separated piece matches.
   */
  function FindCookie(cookie: string, name: string): (r: Option<string>)
    ensures cookie == "" ==> r == None
    ensures cookie != "" ==>
      (r.None? <==> NoneMatches(Split(cookie), name))
  {
    if cookie == "" then None else FirstMatch(Split(cookie), name)
  }

  /**
   * `getCookie(name)` over the cookie string `cookie`: `Success(None)` for `null`,
   * `Success(Some(v))` for the value `v`, `Failure(UriError)` when decoding throws.
   */
  method GetCookie(cookie: string, name: string, decode: string -> Option<string>)
    returns (r: Result<Option<string>, DecodeError>)
    ensures FindCookie(cookie, name).None? ==> r == Success(None)
    ensures FindCookie(cookie, name).Some? ==>
      r == (match decode(FindCookie(cookie, name).value)
            case Some(v) => Success(Some(v))
            case None => Failure(UriError))
  {
    var cookieValue: Option<string> := None;
    if cookie != "" {
      var cookies := Split(cookie);
      var i := 0;
      while i < |cookies|
        invariant 0 <= i <= |cookies|
        invariant FirstMatch(cookies, name) == FirstMatch(cookies[i..], name)
        invariant cookieValue == None
      {
        var c := Trim(cookies[i]);
        assert cookies[i..] == [cookies[i]] + cookies[i + 1..];
        if Substring(c, 0, |name| + 1) == name + "=" {
          var decoded := decode(Substring(c, |name| + 1, |c|));
          if decoded.None? {
            return Failure(UriError);
          }
          cookieValue := Some(decoded.value);
          break;
        }
        i := i + 1;
      }
    }
    return Success(cookieValue);
  }

  /** A matching first piece gives the rest of it after `name=`. */
  lemma FirstMatchHead(pieces: seq<string>, name: string)
    requires pieces != [] && Matches(Trim(pieces[0]), name)
    ensures FirstMatch(pieces, name) == Some(Trim(pieces[0])[|name| + 1..])
  {
    var t := Trim(pieces[0]);
    assert Substring(t, |name| + 1, |t|) == t[|name| + 1..];
  }

  /** A first piece that does not match is skipped. */
  lemma FirstMatchSkip(pieces: seq<string>, name: string)
    requires pieces != [] && !Matches(Trim(pieces[0]), name)
    ensures FirstMatch(pieces, name) == FirstMatch(pieces[1..], name)
  {
  }

  /**
   * The first matching piece wins: its value is the rest of the trimmed piece after
   * `name=`, and every later piece, one with the same name included, is ignored.
   */
  lemma {:induction false} FirstMatchWins(pieces: seq<string>, name: string, k: int)
    requires 0 <= k < |pieces| && Matches(Trim(pieces[k]), name)
    requires forall j :: 0 <= j < k ==> !Matches(Trim(pieces[j]), name)
    ensures FirstMatch(pieces, name) == Some(Trim(pieces[k])[|name| + 1..])
  {
    if k == 0 {
      FirstMatchHead(pieces, name);
    } else {
      assert pieces[1..][k - 1] == pieces[k];
      FirstMatchWins(pieces[1..], name, k - 1);
      FirstMatchSkip(pieces, name);
    }
  }

  /**
   * A piece whose name only begins with `name` does not match: the character after
   * the name must be `=`, so looking up `csrftoken` skips `csrftokenX=1`.
   */
  lemma LongerNameDoesNotMatch(piece: string, name: string)
    requires |name| < |piece| && piece[..|name|] == name && piece[|name|] != '='
    ensures !Matches(piece, name)
  {
    assert piece[..|name| + 1][|name|] != (name + "=")[|name|];
  }

  lemma CsrfTokenExample()
    ensures !Matches("csrftokenX=1", "csrftoken")
  {
    LongerNameDoesNotMatch("csrftokenX=1", "csrftoken");
  }

  /** A string without `;` splits into itself alone. */
  lemma SplitWithoutSeparator(s: string)
    requires ';' !in s
    ensures Split(s) == [s]
  {
    assert forall k :: 0 <= k < |s| ==> s[k] != ';';
  }

  /**
   * A cookie string holding the single pair `name=value` yields `value` whole, even
   * when `value` itself contains `=`: only the first `name.length + 1` characters are cut.
   */
  lemma SinglePairLookup(name: string, value: string)
    requires ';' !in name && ';' !in value
    requires name == [] || !IsWhitespace(name[0])
    requires value == [] || !IsWhitespace(value[|value| - 1])
    ensures FindCookie(name + "=" + value, name) == Some(value)
  {
    var s := name + "=" + value;
    forall k | 0 <= k < |s| ensures s[k] != ';' {
      if k < |name| {
        assert s[k] == name[k];
      } else if k > |name| {
        assert s[k] == value[k - |name| - 1];
      }
    }
    SplitWithoutSeparator(s);
    assert s[0] == (if name == [] then '=' else name[0]);
    assert s[|s| - 1] == (if value == [] then '=' else value[|value| - 1]);
    TrimOfTrimmed(s);
    assert s[..|name| + 1] == name + "=";
    assert s[|name| + 1..] == value;
    FirstMatchWins([s], name, 0);
  }

  lemma ValueWithEqualsExample()
    ensures FindCookie("sessionid=a=b", "sessionid") == Some("a=b")
  {
    assert "sessionid=a=b" == "sessionid" + "=" + "a=b";
    SinglePairLookup("sessionid", "a=b");
  }
}
