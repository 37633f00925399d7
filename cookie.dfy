/** Reading one cookie from the `document.cookie` string, whose pairs are
    written `name=value` and separated by "; " (section 4.2.1 of RFC 6265):
    the string is split on "; name=" and the value runs to the next ';'. */
module Cookie {
  import opened Js

  /** The first index at which `sep` occurs in `s`, scanning left to right. */
  function FindFirst(s: string, sep: string): (r: Option<nat>)
    requires |sep| > 0
    ensures r.Some? ==> r.value + |sep| <= |s|
    decreases |s|
  {
    if |s| < |sep| then None
    else if sep <= s then Some(0)
    else
      var rest := FindFirst(s[1..], sep);
      if rest.None? then None else Some(rest.value + 1)
  }

  /** The scan finds the first occurrence, and finds nothing only when
      there is no occurrence. */
  lemma {:induction false} FindFirstMeaning(s: string, sep: string)
    requires |sep| > 0
    ensures FindFirst(s, sep).Some? ==> OccursAt(s, sep, FindFirst(s, sep).value)
    ensures FindFirst(s, sep).Some? ==> forall i :: 0 <= i < FindFirst(s, sep).value ==> !OccursAt(s, sep, i)
    ensures FindFirst(s, sep).None? ==> forall i :: !OccursAt(s, sep, i)
    decreases |s|
  {
    assert |s| >= |sep| ==> (sep <= s <==> s[..|sep|] == sep);
    if |s| >= |sep| && !(sep <= s) {
      FindFirstMeaning(s[1..], sep);
      ShiftOccurrence(s, sep);
    }
  }

  /** An occurrence after the first character is an occurrence in the tail. */
  lemma ShiftOccurrence(s: string, sep: string)
    requires |s| > 0
    ensures forall i :: 1 <= i ==> (OccursAt(s, sep, i) <==> OccursAt(s[1..], sep, i - 1))
  {
    forall i | 1 <= i
      ensures OccursAt(s, sep, i) <==> OccursAt(s[1..], sep, i - 1)
    {
      if i + |sep| <= |s| {
        assert s[1..][i - 1..i - 1 + |sep|] == s[i..i + |sep|];
      }
    }
  }

  /** `s.split(sep)` for a non-empty separator. */
  function Split(s: string, sep: string): (parts: seq<string>)
    requires |sep| > 0
    ensures |parts| >= 1
    decreases |s|
  {
    var f := FindFirst(s, sep);
    if f.None? then [s] else [s[..f.value]] + Split(s[f.value + |sep|..], sep)
  }

  /** A one-character separator occurs exactly where that character is. */
  lemma OccursChar(t: string, c: char, i: int)
    ensures OccursAt(t, [c], i) <==> 0 <= i < |t| && t[i] == c
  {
    if 0 <= i < |t| {
      assert t[i..i + 1] == [t[i]];
    }
  }

  /** `t.split(';').shift()`: the text before the first ';'. */
  function BeforeSemicolon(t: string): (r: string)
    ensures ';' !in r
    ensures |r| <= |t| && r == t[..|r|]
    ensures |r| < |t| ==> t[|r|] == ';'
  {
    var head := Split(t, ";")[0];
    FindFirstMeaning(t, ";");
    match FindFirst(t, ";")
    case None =>
      forall j | 0 <= j < |t|
        ensures t[j] != ';'
      {
        OccursChar(t, ';', j);
      }
      head
    case Some(i) =>
      forall j | 0 <= j < i
        ensures t[j] != ';'
      {
        OccursChar(t, ';', j);
      }
      OccursChar(t, ';', i);
      head
  }

  /** A split yields two parts exactly when the scan finds the separator
      once; the second part is then the text after it. */
  lemma SplitTwo(s: string, sep: string)
    requires |sep| > 0
    ensures |Split(s, sep)| == 2 <==>
      FindFirst(s, sep).Some? && FindFirst(s[FindFirst(s, sep).value + |sep|..], sep).None?
    ensures |Split(s, sep)| == 2 ==> Split(s, sep)[1] == s[FindFirst(s, sep).value + |sep|..]
  {
    var f := FindFirst(s, sep);
    if f.Some? {
      var rest := s[f.value + |sep|..];
      SplitAfterFirst(s, sep);
      SplitSingle(rest, sep);
    }
  }

  /** Past the first part, a split continues with the split of the text
      after the first separator. */
  lemma SplitAfterFirst(s: string, sep: string)
    requires |sep| > 0 && FindFirst(s, sep).Some?
    ensures |Split(s, sep)| == 1 + |Split(s[FindFirst(s, sep).value + |sep|..], sep)|
    ensures Split(s, sep)[1] == Split(s[FindFirst(s, sep).value + |sep|..], sep)[0]
  {
    var i := FindFirst(s, sep).value;
    var tail := Split(s[i + |sep|..], sep);
    assert Split(s, sep) == [s[..i]] + tail;
  }

  /** A split yields one part exactly when the separator is not found, and
      that part is then the whole string. */
  lemma SplitSingle(t: string, sep: string)
    requires |sep| > 0
    ensures |Split(t, sep)| == 1 <==> FindFirst(t, sep).None?
    ensures FindFirst(t, sep).None? ==> Split(t, sep)[0] == t
  {
    if FindFirst(t, sep).Some? {
      SplitAfterFirst(t, sep);
    }
  }

  /** The separator looked for: "; name=". */
  function Needle(name: string): (sep: string)
    ensures |sep| == |name| + 3
  {
    "; " + name + "="
  }

  /** `getCookie(name)`: `None` stands for `null`. */
  function GetCookie(cookie: string, name: string): (r: Option<string>)
    ensures r.Some? ==> ';' !in r.value
  {
    var parts := Split("; " + cookie, Needle(name));
    if |parts| == 2 then Some(BeforeSemicolon(parts[1])) else None
  }

  /** The value is found exactly when "; name=" occurs once in the scan of
      "; " + cookie, and it is then the text after that occurrence up to the
      next ';'. */
  lemma GetCookieIff(v: string, cookie: string, name: string)
    requires v == "; " + cookie
    ensures GetCookie(cookie, name).Some? <==>
      FindFirst(v, Needle(name)).Some? && FindFirst(v[FindFirst(v, Needle(name)).value + |Needle(name)|..], Needle(name)).None?
    ensures GetCookie(cookie, name).Some? ==>
      GetCookie(cookie, name).value == BeforeSemicolon(v[FindFirst(v, Needle(name)).value + |Needle(name)|..])
  {
    SplitTwo(v, Needle(name));
  }

  /** No occurrence of "; name=": `null`. */
  lemma AbsentGivesNull(cookie: string, name: string)
    requires forall i :: !OccursAt("; " + cookie, Needle(name), i)
    ensures GetCookie(cookie, name) == None
  {
    FindFirstMeaning("; " + cookie, Needle(name));
  }

  /** Two separate occurrences of "; name=": `null`. */
  lemma RepeatedGivesNull(cookie: string, name: string, i: nat, j: nat)
    requires OccursAt("; " + cookie, Needle(name), i)
    requires OccursAt("; " + cookie, Needle(name), j) && i + |Needle(name)| <= j
    ensures GetCookie(cookie, name) == None
  {
    SplitTwiceNotTwo("; " + cookie, Needle(name), i, j);
  }

  /** Two separate occurrences of the separator split into more than two
      parts. */
  lemma SplitTwiceNotTwo(v: string, sep: string, i: nat, j: nat)
    requires |sep| > 0 && OccursAt(v, sep, i) && OccursAt(v, sep, j) && i + |sep| <= j
    ensures |Split(v, sep)| != 2
  {
    var f := FindFirst(v, sep);
    assert f.Some? && f.value <= i by {
      FirstAtMost(v, sep, i);
    }
    assert FindFirst(v[f.value + |sep|..], sep).Some? by {
      SecondOccurrence(v, sep, f.value + |sep|, j);
    }
    FoundTwiceNotTwo(v, sep);
  }

  /** When the scan finds the separator again after its first occurrence,
      the split has more than two parts. */
  lemma FoundTwiceNotTwo(v: string, sep: string)
    requires |sep| > 0 && FindFirst(v, sep).Some?
    requires FindFirst(v[FindFirst(v, sep).value + |sep|..], sep).Some?
    ensures |Split(v, sep)| > 2
  {
    var rest := v[FindFirst(v, sep).value + |sep|..];
    SplitAfterFirst(v, sep);
    SplitSingle(rest, sep);
  }

  /** The scan stops at or before any occurrence. */
  lemma FirstAtMost(v: string, sep: string, i: nat)
    requires |sep| > 0 && OccursAt(v, sep, i)
    ensures FindFirst(v, sep).Some? && FindFirst(v, sep).value <= i
  {
    FindFirstMeaning(v, sep);
  }

  /** An occurrence past `from` is an occurrence in the text after `from`. */
  lemma SecondOccurrence(v: string, sep: string, from: nat, j: nat)
    requires |sep| > 0 && from <= j && OccursAt(v, sep, j)
    ensures FindFirst(v[from..], sep).Some?
  {
    assert v[from..][j - from..j - from + |sep|] == v[j..j + |sep|];
    assert OccursAt(v[from..], sep, j - from);
    FindFirstMeaning(v[from..], sep);
  }

  /** A separator with a character the text lacks occurs nowhere in it. */
  lemma MissingCharNeverOccurs(t: string, sep: string, k: nat)
    requires k < |sep| && sep[k] !in t
    ensures forall i :: !OccursAt(t, sep, i)
  {
    forall i | 0 <= i && i + |sep| <= |t|
      ensures !OccursAt(t, sep, i)
    {
      assert t[i..i + |sep|][k] == t[i + k] && t[i + k] in t;
    }
  }

  /** The first pair is found like the others, thanks to the "; " prefix. */
  lemma FirstPairFound()
    ensures GetCookie("a=1; b=2", "a") == Some("1")
  {
    var v := "; " + "a=1; b=2";
    FirstPairLocated(v);
    FirstValueText();
    GetCookieIff(v, "a=1; b=2", "a");
  }

  /** "; a=" starts the prefixed string and does not occur after it. */
  lemma FirstPairLocated(v: string)
    requires v == "; " + "a=1; b=2"
    ensures FindFirst(v, Needle("a")) == Some(0)
    ensures v[|Needle("a")|..] == "1; b=2"
    ensures FindFirst(v[|Needle("a")|..], Needle("a")).None?
  {
    var sep := Needle("a");
    assert sep == "; a=";
    assert v[..|sep|] == sep;
    assert v[|sep|..] == "1; b=2";
    MissingCharNeverOccurs(v[|sep|..], sep, 2);
    FindFirstMeaning(v[|sep|..], sep);
  }

  lemma FirstValueText()
    ensures BeforeSemicolon("1; b=2") == "1"
  {
    var rest := "1; b=2";
    OccursChar(rest, ';', 0);
    OccursChar(rest, ';', 1);
    assert FindFirst(rest, ";") == Some(1);
    assert rest[..1] == "1";
  }

  /** Only whole names at pair boundaries match: 'token' does not find the
      'accessToken' pair. */
  lemma WholeNamesOnly()
    ensures GetCookie("accessToken=abc", "token") == None
  {
    assert forall i :: !OccursAt("; " + "accessToken=abc", Needle("token"), i) by {
      var v := "; accessToken=abc";
      var sep := Needle("token");
      assert v == "; " + "accessToken=abc";
      assert sep == "; token=";
      MissingCharNeverOccurs(v, sep, 2);
    }
    AbsentGivesNull("accessToken=abc", "token");
  }
}
