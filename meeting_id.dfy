/**
 * The meeting-identifier normaliser of backend/src/utils/meetingId.ts.
 *
 * A Zoom meeting UUID is base64 text and may hold '+', '/' and '='; the
 * normaliser rewrites it into a key that is safe inside a URL path segment.
 * The source chains three global replacements; the model keeps that chain
 * (ReplaceAll twice, then RemoveAll) and relates it to a one-pass,
 * character-by-character reference definition.
 */
module MeetingId {

  /** The three characters that a path segment cannot carry safely. */
  predicate IsUnsafe(c: char) {
    c == '+' || c == '/' || c == '='
  }

  /** No character of `s` is one of '+', '/', '='. */
  predicate IsUrlSafe(s: string) {
    forall i :: 0 <= i < |s| ==> !IsUnsafe(s[i])
  }

  /** Number of occurrences of `c` in `s`. */
  function Count(s: string, c: char): nat {
    if s == [] then 0 else (if s[0] == c then 1 else 0) + Count(s[1..], c)
  }

  /** `s.replace(/from/g, to)` for a single literal character. */
  function ReplaceAll(s: string, from: char, to: char): (r: string)
    ensures |r| == |s|
    ensures forall i :: 0 <= i < |s| ==> r[i] == (if s[i] == from then to else s[i])
  {
    if s == [] then [] else [if s[0] == from then to else s[0]] + ReplaceAll(s[1..], from, to)
  }

  /** `s.replace(/c/g, '')`: every occurrence of `c` is dropped. */
  function RemoveAll(s: string, c: char): (r: string)
    ensures |r| == |s| - Count(s, c)
    ensures forall i :: 0 <= i < |r| ==> r[i] != c
    ensures forall i :: 0 <= i < |r| ==> r[i] in s
  {
    if s == [] then []
    else
      var rest := RemoveAll(s[1..], c);
      if s[0] == c then rest
      else
        assert forall i :: 1 <= i < |rest| + 1 ==> ([s[0]] + rest)[i] == rest[i - 1];
        [s[0]] + rest
  }

  /**
   * RemoveAll works piecewise and keeps order: a single character is dropped
   * exactly when it is `c`, and the result for a concatenation is the results
   * for the parts, in order.
   */
  lemma {:induction false} RemoveAllAppend(a: string, b: string, c: char)
    ensures forall x :: RemoveAll([x], c) == (if x == c then [] else [x])
    ensures RemoveAll(a + b, c) == RemoveAll(a, c) + RemoveAll(b, c)
  {
    forall x ensures RemoveAll([x], c) == (if x == c then [] else [x]) {
      assert [x][1..] == [];
    }
    if a == [] {
      assert a + b == b;
    } else {
      assert (a + b)[1..] == a[1..] + b;
      RemoveAllAppend(a[1..], b, c);
    }
  }

  /** toUrlSafeId: '+' becomes '-', '/' becomes '_', and '=' is removed. */
  function ToUrlSafeId(uuid: string): (id: string)
    ensures IsUrlSafe(id)
    ensures |id| == |uuid| - Count(uuid, '=')
  {
    var plusFree := ReplaceAll(uuid, '+', '-');
    var slashFree := ReplaceAll(plusFree, '/', '_');
    CountUnderReplace(uuid, '+', '-', '=');
    CountUnderReplace(plusFree, '/', '_', '=');
    var id := RemoveAll(slashFree, '=');
    assert '+' !in slashFree && '/' !in slashFree;
    id
  }

  /** The character a safe key holds in place of `c` when `c` is kept. */
  function SafeChar(c: char): char {
    if c == '+' then '-' else if c == '/' then '_' else c
  }

  /**
   * Reference definition in one pass: each character is mapped on its own,
   * '=' to nothing, '+' to '-', '/' to '_', and every other one to itself,
   * in the order of the input.
   */
  function Charwise(s: string): string {
    if s == [] then [] else (if s[0] == '=' then "" else [SafeChar(s[0])]) + Charwise(s[1..])
  }

  /** Replacing one character by another that differs from `c` keeps the count of `c`. */
  lemma {:induction false} CountUnderReplace(s: string, from: char, to: char, c: char)
    requires from != c && to != c
    ensures Count(ReplaceAll(s, from, to), c) == Count(s, c)
  {
    if s != [] {
      var r := ReplaceAll(s, from, to);
      assert r[1..] == ReplaceAll(s[1..], from, to);
      CountUnderReplace(s[1..], from, to, c);
    }
  }

  /** The chain of three replacements is the one-pass character map. */
  lemma {:induction false} ToUrlSafeIdIsCharwise(s: string)
    ensures ToUrlSafeId(s) == Charwise(s)
  {
    if s != [] {
      var plusFree := ReplaceAll(s, '+', '-');
      var slashFree := ReplaceAll(plusFree, '/', '_');
      assert plusFree[1..] == ReplaceAll(s[1..], '+', '-');
      assert slashFree[1..] == ReplaceAll(plusFree[1..], '/', '_');
      assert slashFree[0] == SafeChar(s[0]);
      ToUrlSafeIdIsCharwise(s[1..]);
    }
  }

  /** A string free of '+', '/' and '=' is its own key. */
  lemma {:induction false} SafeIsFixedPoint(s: string)
    requires IsUrlSafe(s)
    ensures ToUrlSafeId(s) == s
  {
    CharwiseSafe(s);
    ToUrlSafeIdIsCharwise(s);
  }

  lemma {:induction false} CharwiseSafe(s: string)
    requires IsUrlSafe(s)
    ensures Charwise(s) == s
  {
    if s != [] {
      assert !IsUnsafe(s[0]);
      assert IsUrlSafe(s[1..]) by {
        forall i | 0 <= i < |s[1..]| ensures !IsUnsafe(s[1..][i]) {
          assert s[1..][i] == s[i + 1];
        }
      }
      CharwiseSafe(s[1..]);
    }
  }

  /** The fixed points of the normaliser are exactly the strings that are already safe. */
  lemma FixedPointIff(s: string)
    ensures ToUrlSafeId(s) == s <==> IsUrlSafe(s)
  {
    if IsUrlSafe(s) {
      SafeIsFixedPoint(s);
    }
  }

  /** Normalising twice gives the same key as normalising once. */
  lemma Idempotent(s: string)
    ensures ToUrlSafeId(ToUrlSafeId(s)) == ToUrlSafeId(s)
  {
    SafeIsFixedPoint(ToUrlSafeId(s));
  }

  /** Every character of the input that is not '=' appears, mapped, in the key; '=' never does. */
  lemma {:induction false} CharwiseMembership(s: string, c: char)
    ensures c in Charwise(s) <==> exists k :: 0 <= k < |s| && s[k] != '=' && SafeChar(s[k]) == c
  {
    if s != [] {
      CharwiseMembership(s[1..], c);
      var head := if s[0] == '=' then "" else [SafeChar(s[0])];
      assert Charwise(s) == head + Charwise(s[1..]);
      if exists k :: 0 <= k < |s[1..]| && s[1..][k] != '=' && SafeChar(s[1..][k]) == c {
        var k :| 0 <= k < |s[1..]| && s[1..][k] != '=' && SafeChar(s[1..][k]) == c;
        assert s[k + 1] == s[1..][k];
      }
      if exists k :: 0 <= k < |s| && s[k] != '=' && SafeChar(s[k]) == c {
        var k :| 0 <= k < |s| && s[k] != '=' && SafeChar(s[k]) == c;
        if k > 0 {
          assert s[1..][k - 1] == s[k];
        }
      }
    }
  }

  /** The normaliser works piecewise: the key of a concatenation is the concatenation of the keys. */
  lemma ToUrlSafeIdAppend(a: string, b: string)
    ensures ToUrlSafeId(a + b) == ToUrlSafeId(a) + ToUrlSafeId(b)
  {
    ToUrlSafeIdIsCharwise(a + b);
    ToUrlSafeIdIsCharwise(a);
    ToUrlSafeIdIsCharwise(b);
    CharwiseAppend(a, b);
  }

  /** The three unsafe characters on their own. */
  lemma UnsafeCharacters()
    ensures ToUrlSafeId("+") == "-"
    ensures ToUrlSafeId("/") == "_"
    ensures ToUrlSafeId("=") == ""
  {
    ToUrlSafeIdIsCharwise("+");
    ToUrlSafeIdIsCharwise("/");
    ToUrlSafeIdIsCharwise("=");
  }

  /** Scenario of backend/src/utils/__tests__/meetingId.test.ts: all three characters together. */
  lemma ScenarioAllSpecials()
    ensures ToUrlSafeId("a+b/c=d==") == "a-b_cd"
  {
    SeparatorsAndPadding("a", "b", "c", "d");
    assert "a" + "+" + "b" + "/" + "c" + "=" + "d" + "==" == "a+b/c=d==";
    assert "a" + "-" + "b" + "_" + "c" + "d" == "a-b_cd";
  }

  /** A safe run, an unsafe separator, and whatever follows: the separator alone is rewritten. */
  lemma SafeThenSeparator(x: string, c: char, rest: string)
    requires IsUrlSafe(x) && IsUnsafe(c)
    ensures Charwise(x + [c] + rest) == x + (if c == '=' then "" else [SafeChar(c)]) + Charwise(rest)
  {
    CharwiseSafe(x);
    CharwiseAppend(x + [c], rest);
    CharwiseAppend(x, [c]);
    assert Charwise([c]) == (if c == '=' then "" else [SafeChar(c)]) + Charwise([]);
  }

  lemma SeparatorsAndPadding(x: string, y: string, z: string, w: string)
    requires IsUrlSafe(x) && IsUrlSafe(y) && IsUrlSafe(z) && IsUrlSafe(w)
    ensures ToUrlSafeId(x + "+" + y + "/" + z + "=" + w + "==") == x + "-" + y + "_" + z + w
  {
    var s4 := w + "==";
    var s3 := z + "=" + s4;
    var s2 := y + "/" + s3;
    var s1 := x + "+" + s2;
    assert s1 == x + "+" + y + "/" + z + "=" + w + "==";
    assert s4 == w + ['='] + "=";
    SafeThenSeparator(w, '=', "=");
    assert Charwise("=") == "";
    assert Charwise(s4) == w;
    SafeThenSeparator(z, '=', s4);
    SafeThenSeparator(y, '/', s3);
    SafeThenSeparator(x, '+', s2);
    ToUrlSafeIdIsCharwise(s1);
  }

  /** Two safe runs around one '+' or '/': only the separator is rewritten. */
  lemma SafeAroundSeparator(x: string, c: char, y: string)
    requires IsUrlSafe(x) && IsUrlSafe(y) && (c == '+' || c == '/')
    ensures ToUrlSafeId(x + [c] + y) == x + [SafeChar(c)] + y
  {
    SafeThenSeparator(x, c, y);
    CharwiseSafe(y);
    ToUrlSafeIdIsCharwise(x + [c] + y);
  }

  /** A safe run followed by "==" padding loses only the padding. */
  lemma PaddingStripped(x: string)
    requires IsUrlSafe(x)
    ensures ToUrlSafeId(x + "==") == x
  {
    assert x + "==" == x + ['='] + "=";
    SafeThenSeparator(x, '=', "=");
    assert Charwise("=") == "";
    ToUrlSafeIdIsCharwise(x + "==");
  }

  /** Three safe runs separated by '+' and '/' and padded with "==", the shape of a base64 UUID. */
  lemma SeparatedAndPadded(x: string, y: string, z: string)
    requires IsUrlSafe(x) && IsUrlSafe(y) && IsUrlSafe(z)
    ensures ToUrlSafeId(x + "+" + y + "/" + z + "==") == x + "-" + y + "_" + z
  {
    var s3 := z + "==";
    var s2 := y + "/" + s3;
    var s1 := x + "+" + s2;
    assert s1 == x + "+" + y + "/" + z + "==";
    assert s3 == z + ['='] + "=";
    SafeThenSeparator(z, '=', "=");
    assert Charwise("=") == "";
    SafeThenSeparator(y, '/', s3);
    SafeThenSeparator(x, '+', s2);
    ToUrlSafeIdIsCharwise(s1);
  }

  /** Scenarios of backend/src/utils/__tests__/meetingId.test.ts: one separator each. */
  lemma ScenarioSingleSeparators()
    ensures ToUrlSafeId("abc+def") == "abc-def"
    ensures ToUrlSafeId("abc/def") == "abc_def"
  {
    SafeAroundSeparator("abc", '+', "def");
    SafeAroundSeparator("abc", '/', "def");
    assert "abc" + ['+'] + "def" == "abc+def";
    assert "abc" + ['/'] + "def" == "abc/def";
    assert "abc" + [SafeChar('+')] + "def" == "abc-def";
    assert "abc" + [SafeChar('/')] + "def" == "abc_def";
  }

  /** Scenario of backend/src/utils/__tests__/meetingId.test.ts: padding is stripped. */
  lemma ScenarioPadding()
    ensures ToUrlSafeId("abc==") == "abc"
  {
    PaddingStripped("abc");
    assert "abc" + "==" == "abc==";
  }

  /** The meeting UUID of backend/src/routes/__tests__/webhooks.test.ts and the key it is stored under. */
  lemma ScenarioWebhookUuid()
    ensures ToUrlSafeId("abc+def/ghi==") == "abc-def_ghi"
  {
    SeparatedAndPadded("abc", "def", "ghi");
    assert "abc" + "+" + "def" + "/" + "ghi" + "==" == "abc+def/ghi==";
    assert "abc" + "-" + "def" + "_" + "ghi" == "abc-def_ghi";
  }

  /** Concatenation commutes with the character map. */
  lemma {:induction false} CharwiseAppend(a: string, b: string)
    ensures Charwise(a + b) == Charwise(a) + Charwise(b)
  {
    if a != [] {
      assert (a + b)[1..] == a[1..] + b;
      CharwiseAppend(a[1..], b);
    } else {
      assert a + b == b;
    }
  }
}
