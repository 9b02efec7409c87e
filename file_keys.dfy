/**
 * Registry keys for image paths.
 *
 * The scheduler never uses a raw path as a registry key: every '.' is first
 * replaced by the three characters "%2E", so that a key never contains the
 * separator of the path expressions the registry is addressed with.
 */
module FileKeys {

  /** What a '.' becomes inside a key. */
  const DotEscape: string := "%2E"

  /** The number of '.' characters in `s`. */
  function Dots(s: string): nat
  {
    if s == [] then 0 else (if s[0] == '.' then 1 else 0) + Dots(s[1..])
  }

  /** True iff "%2E" occurs somewhere in `s`. */
  predicate HasDotEscape(s: string)
  {
    |s| >= 3 && (s[..3] == DotEscape || HasDotEscape(s[1..]))
  }

  /** `getFileKey`: every '.' of the path replaced by "%2E", left to right. */
  function GetFileKey(path: string): (key: string)
    ensures '.' !in key
    ensures |key| == |path| + 2 * Dots(path)
  {
    if path == [] then []
    else (if path[0] == '.' then DotEscape else [path[0]]) + GetFileKey(path[1..])
  }

  /** Reads a key back: every "%2E", scanned left to right, becomes a '.'. */
  function Unescape(key: string): string
  {
    if key == [] then []
    else if |key| >= 3 && key[..3] == DotEscape then ['.'] + Unescape(key[3..])
    else [key[0]] + Unescape(key[1..])
  }

  /** The first character of a key is the first character of the path, or '%' for a '.'. */
  lemma KeyHead(path: string)
    requires path != []
    ensures GetFileKey(path) != []
    ensures GetFileKey(path)[0] == if path[0] == '.' then '%' else path[0]
  {
  }

  /** Escaping works character by character, so it distributes over concatenation. */
  lemma {:induction false} GetFileKeyAppend(a: string, b: string)
    ensures GetFileKey(a + b) == GetFileKey(a) + GetFileKey(b)
  {
    if a == [] {
      assert a + b == b;
    } else {
      assert (a + b)[1..] == a[1..] + b;
      GetFileKeyAppend(a[1..], b);
    }
  }

  /** A path without '.' is its own key; a path with one is not. */
  lemma {:induction false} GetFileKeyFixedIffNoDot(path: string)
    ensures GetFileKey(path) == path <==> '.' !in path
  {
    if path != [] {
      GetFileKeyFixedIffNoDot(path[1..]);
      if '.' in path[1..] {
        DotsPositive(path[1..]);
      }
      assert path == [path[0]] + path[1..];
    }
  }

  lemma {:induction false} DotsPositive(s: string)
    requires '.' in s
    ensures Dots(s) > 0
  {
    if s[0] != '.' {
      assert '.' in s[1..];
      DotsPositive(s[1..]);
    }
  }

  /** Escaping an already escaped key changes nothing. */
  lemma GetFileKeyIdempotent(path: string)
    ensures GetFileKey(GetFileKey(path)) == GetFileKey(path)
  {
    GetFileKeyFixedIffNoDot(GetFileKey(path));
  }

  /**
   * The key determines the path, provided the path does not itself contain
   * "%2E": unescaping the key gives the path back.
   */
  lemma {:induction false} UnescapeGetFileKey(path: string)
    requires !HasDotEscape(path)
    ensures Unescape(GetFileKey(path)) == path
  {
    if path != [] {
      var rest := GetFileKey(path[1..]);
      assert !HasDotEscape(path[1..]);
      UnescapeGetFileKey(path[1..]);
      if path[0] == '.' {
        var key := DotEscape + rest;
        assert GetFileKey(path) == key;
        assert key[..3] == DotEscape && key[3..] == rest;
      } else {
        var key := [path[0]] + rest;
        assert GetFileKey(path) == key;
        NotEscapeStart(path);
        assert key[1..] == rest;
      }
    }
  }

  /** A key whose path starts with a character other than '.' only starts with "%2E" if the path does. */
  lemma NotEscapeStart(path: string)
    requires path != [] && path[0] != '.' && !HasDotEscape(path)
    ensures var key := GetFileKey(path); !(|key| >= 3 && key[..3] == DotEscape)
  {
    var key := GetFileKey(path);
    assert key == [path[0]] + GetFileKey(path[1..]);
    if path[0] == '%' && |path| >= 2 {
      KeyHead(path[1..]);
      if path[1] == '2' && |path| >= 3 {
        assert key[1..] == GetFileKey(path[1..]) == ['2'] + GetFileKey(path[2..]);
        KeyHead(path[2..]);
        assert path[..3] != DotEscape;
        assert path[2] != 'E';
        assert key[2] != 'E';
      }
    }
  }

  /** Two different paths can share a key: the escaping is not injective. */
  lemma GetFileKeyCollision()
    ensures "a.b" != "a%2Eb"
    ensures GetFileKey("a.b") == GetFileKey("a%2Eb") == "a%2Eb"
  {
    GetFileKeyFixedIffNoDot("a%2Eb");
    assert GetFileKey("a.b") == "a" + GetFileKey(".b");
    assert GetFileKey(".b") == DotEscape + GetFileKey("b");
  }
}
