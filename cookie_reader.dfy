/** Reading and deleting browser cookies (frontend/src/utils/cookie.ts).
    `document.cookie` is the browser's "name=value" pairs joined by "; ";
    getCookieValue splits "; " + document.cookie on "; " + name + "=" with
    String.prototype.split. */
module CookieReader {
  import opened Base

  /** `m` occurs in `s` starting at index j. */
  predicate OccursAt(s: string, m: string, j: int)
  {
    0 <= j && j + |m| <= |s| && s[j..j + |m|] == m
  }

  /** The leftmost occurrence of a non-empty `m` in `s` (indexOf); FindSpec
      states that it is the leftmost one. */
  function Find(s: string, m: string): (r: Option<nat>)
    requires |m| > 0
    ensures r.Some? ==> r.value + |m| <= |s|
    decreases |s|
  {
    if |s| < |m| then None
    else if s[..|m|] == m then Some(0)
    else
      match Find(s[1..], m)
      case None => None
      case Some(k) => Some(k + 1)
  }

  /** Find answers the leftmost occurrence, and none only when there is none. */
  lemma {:induction false} FindSpec(s: string, m: string)
    requires |m| > 0
    ensures Find(s, m).Some? ==> OccursAt(s, m, Find(s, m).value)
    ensures Find(s, m).Some? ==> forall j :: 0 <= j < Find(s, m).value ==> !OccursAt(s, m, j)
    ensures Find(s, m).None? ==> forall j :: !OccursAt(s, m, j)
    decreases |s|
  {
    if |s| >= |m| && s[..|m|] != m {
      FindSpec(s[1..], m);
      var r := Find(s[1..], m);
      if r.Some? {
        OccursShift(s, m, r.value);
      }
      forall j | 0 < j
        ensures OccursAt(s, m, j) <==> OccursAt(s[1..], m, j - 1)
      {
        OccursShift(s, m, j - 1);
      }
    }
  }

  lemma OccursShift(s: string, m: string, j: int)
    requires |s| > 0 && 0 <= j
    ensures OccursAt(s, m, j + 1) <==> OccursAt(s[1..], m, j)
  {
    if j + 1 + |m| <= |s| {
      assert s[j + 1..j + 1 + |m|] == s[1..][j..j + |m|];
    }
  }

  /** String.prototype.split with a non-empty separator: the pieces between
      the leftmost non-overlapping occurrences, scanning left to right. */
  function Split(s: string, sep: string): (parts: seq<string>)
    requires |sep| > 0
    ensures |parts| >= 1
    decreases |s|
  {
    match Find(s, sep)
    case None => [s]
    case Some(j) => [s[..j]] + Split(s[j + |sep|..], sep)
  }

  /** The first piece ends at the first occurrence, and there is one
      piece exactly when the separator does not occur. */
  lemma SplitAtFirst(s: string, sep: string)
    requires |sep| > 0
    ensures Find(s, sep).None? <==> |Split(s, sep)| == 1
    ensures Find(s, sep).None? ==> Split(s, sep) == [s]
    ensures Find(s, sep).Some? ==>
              Split(s, sep) == [s[..Find(s, sep).value]] + Split(s[Find(s, sep).value + |sep|..], sep)
  {
    var f := Find(s, sep);
    if f.Some? {
      var rest := Split(s[f.value + |sep|..], sep);
      assert |rest| >= 1;
    }
  }

  /** Joining the pieces with the separator gives the string back. */
  lemma {:induction false} SplitJoin(s: string, sep: string)
    requires |sep| > 0
    ensures Join(Split(s, sep), sep) == s
    decreases |s|
  {
    SplitAtFirst(s, sep);
    var f := Find(s, sep);
    if f.Some? {
      var j := f.value;
      var rest := s[j + |sep|..];
      FindSpec(s, sep);
      SplitJoin(rest, sep);
      JoinCons(s[..j], Split(rest, sep), sep);
      Reassemble(s, sep, j);
    }
  }

  lemma Reassemble(s: string, m: string, j: int)
    requires OccursAt(s, m, j)
    ensures s == s[..j] + m + s[j + |m|..]
  {
    assert s[..j] + s[j..j + |m|] + s[j + |m|..] == s;
  }

  /** `split(';').shift()`: the text before the first ';'. */
  function FirstPiece(s: string): (p: string)
    ensures StartsWith(s, p) && forall i :: 0 <= i < |p| ==> p[i] != ';'
    ensures |p| < |s| ==> s[|p|] == ';'
  {
    var p := Split(s, ";")[0];
    FindSpec(s, ";");
    match Find(s, ";")
    case None =>
      assert forall i :: 0 <= i < |s| ==> s[i] != ';' by {
        forall i | 0 <= i < |s| ensures s[i] != ';' {
          assert !OccursAt(s, ";", i);
          assert s[i..i + 1] == [s[i]];
        }
      }
      p
    case Some(j) =>
      assert forall i :: 0 <= i < j ==> s[i] != ';' by {
        forall i | 0 <= i < j ensures s[i] != ';' {
          assert !OccursAt(s, ";", i);
          assert s[i..i + 1] == [s[i]];
        }
      }
      assert s[j..j + 1] == ";";
      p
  }

  /** getCookieValue: the value when the marker "; " + name + "=" splits the
      string in exactly two, cut at the first ';'; an empty value is null. */
  function GetCookieValue(name: string, documentCookie: string): (r: Option<string>)
    ensures r.Some? ==> r.value != "" && forall i :: 0 <= i < |r.value| ==> r.value[i] != ';'
  {
    var value := "; " + documentCookie;
    var parts := Split(value, "; " + name + "=");
    if |parts| == 2 then
      var v := FirstPiece(parts[1]);
      if v == "" then None else Some(v)
    else None
  }

  /** A browser cookie as document.cookie lists it. */
  datatype Pair = Pair(name: string, value: string)

  predicate NoChar(s: string, c: char)
  {
    forall i :: 0 <= i < |s| ==> s[i] != c
  }

  /** Cookie names are tokens (no ';' and no '='); values have no ';'
      (section 4.1.1 of RFC 6265). */
  predicate WellFormedName(n: string)
  {
    NoChar(n, ';') && NoChar(n, '=')
  }

  predicate WellFormed(pairs: seq<Pair>)
  {
    forall i :: 0 <= i < |pairs| ==> WellFormedName(pairs[i].name) && NoChar(pairs[i].value, ';')
  }

  function Text(p: Pair): string
  {
    p.name + "=" + p.value
  }

  function Texts(pairs: seq<Pair>): (ts: seq<string>)
    ensures |ts| == |pairs|
  {
    if |pairs| == 0 then [] else [Text(pairs[0])] + Texts(pairs[1..])
  }

  /** document.cookie: the pairs joined by "; ". */
  function DocumentCookie(pairs: seq<Pair>): string
  {
    Join(Texts(pairs), "; ")
  }

  /** How many cookies carry this name. */
  function CountName(pairs: seq<Pair>, n: string): nat
  {
    if |pairs| == 0 then 0 else (if pairs[0].name == n then 1 else 0) + CountName(pairs[1..], n)
  }

  /** The value of the first cookie with this name. */
  function ValueOf(pairs: seq<Pair>, n: string): (v: string)
    requires CountName(pairs, n) > 0
    ensures WellFormed(pairs) ==> NoChar(v, ';')
  {
    if pairs[0].name == n then pairs[0].value else ValueOf(pairs[1..], n)
  }

  /** The cookies after the first one with this name. */
  function After(pairs: seq<Pair>, n: string): (rest: seq<Pair>)
    requires CountName(pairs, n) > 0
    ensures CountName(rest, n) == CountName(pairs, n) - 1
    ensures WellFormed(pairs) ==> WellFormed(rest)
  {
    if pairs[0].name == n then pairs[1..] else After(pairs[1..], n)
  }

  /** "; " + document.cookie, built pair by pair. */
  function Header(pairs: seq<Pair>): string
  {
    if |pairs| == 0 then "" else "; " + Text(pairs[0]) + Header(pairs[1..])
  }

  function Marker(n: string): string
  {
    "; " + n + "="
  }

  lemma {:induction false} HeaderOfDocument(pairs: seq<Pair>)
    requires |pairs| > 0
    ensures "; " + DocumentCookie(pairs) == Header(pairs)
  {
    if |pairs| > 1 {
      HeaderOfDocument(pairs[1..]);
      assert Texts(pairs)[1..] == Texts(pairs[1..]);
    } else {
      assert Header(pairs[1..]) == "";
    }
  }

  function Shift(r: Option<nat>, k: nat): Option<nat>
  {
    match r
    case None => None
    case Some(j) => Some(j + k)
  }

  /** Searching past a prefix in which no occurrence starts. */
  lemma FindSkip(a: string, b: string, m: string)
    requires |m| > 0
    requires forall j :: 0 <= j < |a| ==> !OccursAt(a + b, m, j)
    ensures Find(a + b, m) == Shift(Find(b, m), |a|)
  {
    var s := a + b;
    FindSpec(b, m);
    match Find(b, m)
    case None =>
      forall j ensures !OccursAt(s, m, j) {
        if j >= |a| {
          OccursInSuffix(a, b, m, j);
        }
      }
      FindAbsent(s, m);
    case Some(k) =>
      OccursInSuffix(a, b, m, k + |a|);
      forall j | 0 <= j < k + |a| ensures !OccursAt(s, m, j) {
        if j >= |a| {
          OccursInSuffix(a, b, m, j);
        }
      }
      FindIsLeftmost(s, m, k + |a|);
  }

  /** Past the prefix, an occurrence in a + b is an occurrence in b. */
  lemma OccursInSuffix(a: string, b: string, m: string, j: int)
    requires j >= |a|
    ensures OccursAt(a + b, m, j) <==> OccursAt(b, m, j - |a|)
  {
    if j + |m| <= |a + b| {
      assert (a + b)[j..j + |m|] == b[j - |a|..j - |a| + |m|];
    }
  }

  lemma FindIsLeftmost(s: string, m: string, x: int)
    requires |m| > 0 && OccursAt(s, m, x) && forall j :: 0 <= j < x ==> !OccursAt(s, m, j)
    ensures Find(s, m) == Some(x)
  {
    FindSpec(s, m);
  }

  lemma FindAbsent(s: string, m: string)
    requires |m| > 0 && forall j :: !OccursAt(s, m, j)
    ensures Find(s, m) == None
  {
    FindSpec(s, m);
  }

  /** An occurrence of the marker starts at a ';'. */
  lemma MarkerStartsAtSemicolon(s: string, n: string, j: int)
    requires OccursAt(s, Marker(n), j)
    ensures s[j] == ';'
  {
    assert s[j..j + |Marker(n)|][0] == s[j];
  }

  /** At the start of a pair, the marker of a well-formed name matches
      exactly when the pair has that name. */
  lemma MarkerAtPair(p: Pair, b: string, n: string)
    requires WellFormedName(p.name) && WellFormedName(n)
    ensures OccursAt("; " + Text(p) + b, Marker(n), 0) <==> p.name == n
  {
    var s := "; " + Text(p) + b;
    var m := Marker(n);
    if p.name == n {
      assert s[..|m|] == m;
    } else if OccursAt(s, m, 0) {
      var t := p.name + "=" + p.value + b;
      assert s == "; " + t;
      assert t[..|n| + 1] == s[..|m|][2..] == (n + "=");
      NameBeforeEquals(n, p.name, p.value + b);
    }
  }

  /** A text "name=..." that starts with n + "=" has name n, when neither
      name contains '='. */
  lemma NameBeforeEquals(n: string, name: string, rest: string)
    requires NoChar(n, '=') && NoChar(name, '=')
    requires |n| + 1 <= |name + "=" + rest| && (name + "=" + rest)[..|n| + 1] == n + "="
    ensures n == name
  {
    var t := name + "=" + rest;
    var k := if |name| < |n| then |name| else |n|;
    assert t[k] == t[..|n| + 1][k] == (n + "=")[k];
    assert |name| == |n|;
    assert n == t[..|n|] == name;
  }

  /** Where the marker first occurs in the header: nowhere exactly when no
      cookie has the name; otherwise right before the first such cookie's
      value, which is followed by the pairs after it. */
  lemma {:induction false} FindInHeader(pairs: seq<Pair>, n: string)
    requires WellFormed(pairs) && WellFormedName(n)
    ensures Find(Header(pairs), Marker(n)).None? <==> CountName(pairs, n) == 0
    ensures Find(Header(pairs), Marker(n)).Some? ==>
              Header(pairs)[Find(Header(pairs), Marker(n)).value + |Marker(n)|..] ==
              ValueOf(pairs, n) + Header(After(pairs, n))
  {
    if |pairs| > 0 {
      var m := Marker(n);
      var p := pairs[0];
      var c := "; " + Text(p);
      var rest := Header(pairs[1..]);
      var s := Header(pairs);
      assert s == c + rest;
      if p.name == n {
        MarkerAtHead(p, rest, n);
      } else {
        FindInHeader(pairs[1..], n);
        NoMarkerInPair(p, rest, n);
        FindSkip(c, rest, m);
        var f := Find(rest, m);
        if f.Some? {
          assert s[f.value + |c| + |m|..] == rest[f.value + |m|..];
        }
      }
    }
  }

  /** A header whose first pair has the name: the marker is found at once,
      right before that pair's value. */
  lemma MarkerAtHead(p: Pair, rest: string, n: string)
    requires WellFormedName(n) && p.name == n
    ensures Find("; " + Text(p) + rest, Marker(n)) == Some(0)
    ensures ("; " + Text(p) + rest)[|Marker(n)|..] == p.value + rest
  {
    var s := "; " + Text(p) + rest;
    assert s == Marker(n) + (p.value + rest);
    assert s[..|Marker(n)|] == Marker(n);
  }

  /** No marker of another name starts within a well-formed pair. */
  lemma NoMarkerInPair(p: Pair, rest: string, n: string)
    requires WellFormedName(p.name) && NoChar(p.value, ';') && WellFormedName(n) && p.name != n
    ensures forall j :: 0 <= j < |"; " + Text(p)| ==> !OccursAt("; " + Text(p) + rest, Marker(n), j)
  {
    var c := "; " + Text(p);
    MarkerAtPair(p, rest, n);
    forall j | 0 < j < |c|
      ensures !OccursAt(c + rest, Marker(n), j)
    {
      assert (c + rest)[j] == c[j] != ';';
      if OccursAt(c + rest, Marker(n), j) {
        MarkerStartsAtSemicolon(c + rest, n, j);
      }
    }
  }

  /** Read on a well-formed cookie string, getCookieValue returns the value
      of the named cookie when exactly one cookie has that name and its
      value is not empty, and null otherwise: a name that only ends another
      cookie's name is not matched, and two cookies of one name read as none. */
  lemma GetCookieValueSpec(pairs: seq<Pair>, n: string)
    requires WellFormed(pairs) && WellFormedName(n)
    ensures GetCookieValue(n, DocumentCookie(pairs)) ==
              if CountName(pairs, n) == 1 && ValueOf(pairs, n) != "" then Some(ValueOf(pairs, n)) else None
  {
    var m := Marker(n);
    var value := "; " + DocumentCookie(pairs);
    assert "; " + n + "=" == m;
    if |pairs| == 0 {
      assert value == "; ";
      assert Find(value, m).None? by {
        assert !OccursAt(value, m, 0);
      }
    } else {
      HeaderOfDocument(pairs);
      FindInHeader(pairs, n);
      if Find(value, m).Some? {
        PartsAfterMarker(pairs, n);
      }
    }
  }

  /** When the marker occurs, the piece after it is the value of the first
      cookie with the name followed by the later pairs, and the split has
      exactly two pieces when no later cookie has the name. */
  lemma PartsAfterMarker(pairs: seq<Pair>, n: string)
    requires WellFormed(pairs) && WellFormedName(n)
    requires Find(Header(pairs), Marker(n)).Some?
    ensures CountName(pairs, n) > 0
    ensures |Split(Header(pairs), Marker(n))| == 2 <==> CountName(pairs, n) == 1
    ensures |Split(Header(pairs), Marker(n))| == 2 ==>
              FirstPiece(Split(Header(pairs), Marker(n))[1]) == ValueOf(pairs, n)
  {
    var m := Marker(n);
    var h := Header(pairs);
    var f := Find(h, m).value;
    FindInHeader(pairs, n);
    var v := ValueOf(pairs, n);
    var after := After(pairs, n);
    var tail := h[f + |m|..];
    assert tail == v + Header(after);
    ValueIsOpaqueToMarker(v, Header(after), n);
    FindInHeader(after, n);
    SplitAtFirst(h, m);
    SplitAtFirst(tail, m);
    if CountName(pairs, n) == 1 {
      FirstPieceOfValue(v, after);
    }
  }

  /** No marker starts inside a value, which has no ';'. */
  lemma ValueIsOpaqueToMarker(v: string, h: string, n: string)
    requires NoChar(v, ';')
    ensures Find(v + h, Marker(n)) == Shift(Find(h, Marker(n)), |v|)
  {
    forall j | 0 <= j < |v|
      ensures !OccursAt(v + h, Marker(n), j)
    {
      if OccursAt(v + h, Marker(n), j) {
        MarkerStartsAtSemicolon(v + h, n, j);
      }
    }
    FindSkip(v, h, Marker(n));
  }

  /** A value followed by further pairs is cut back to the value. */
  lemma FirstPieceOfValue(v: string, after: seq<Pair>)
    requires NoChar(v, ';')
    ensures FirstPiece(v + Header(after)) == v
  {
    var h := Header(after);
    forall j | 0 <= j < |v|
      ensures !OccursAt(v + h, ";", j)
    {
      assert (v + h)[j..j + 1][0] == v[j];
    }
    FindSkip(v, h, ";");
    if |after| > 0 {
      assert OccursAt(h, ";", 0) by {
        assert h[..1] == ";";
      }
    } else {
      assert h == "";
    }
    assert (v + h)[..|v|] == v;
  }

  /** Without the leading "; " a cookie whose name merely ends in the
      requested one would match; with it, it does not. */
  lemma SuffixNameNotMatched()
    ensures GetCookieValue("token", "mytoken=abc") == None
  {
    var pairs := [Pair("mytoken", "abc")];
    assert DocumentCookie(pairs) == "mytoken=abc";
    GetCookieValueSpec(pairs, "token");
  }

  /** The string written to document.cookie to delete a cookie: empty value,
      an expiry in the past, path "/". */
  function ExpiringWrite(name: string): string
  {
    name + "=; expires=Thu, 01 Jan 1970 00:00:01 GMT; path=/;"
  }

  /** The cookies without those of this name. */
  function Without(pairs: seq<Pair>, n: string): (rest: seq<Pair>)
    ensures CountName(rest, n) == 0
    ensures forall k :: k != n ==> CountName(rest, k) == CountName(pairs, k)
    ensures WellFormed(pairs) ==> WellFormed(rest)
  {
    if |pairs| == 0 then []
    else if pairs[0].name == n then Without(pairs[1..], n)
    else [pairs[0]] + Without(pairs[1..], n)
  }

  /** The browser's cookies for the page, and what the page wrote to document.cookie. */
  class CookieDocument {
    var pairs: seq<Pair>
    var writes: seq<string>

    constructor (pairs: seq<Pair>)
      ensures this.pairs == pairs && writes == []
    {
      this.pairs := pairs;
      writes := [];
    }

    function Cookie(): string
      reads this
    {
      DocumentCookie(pairs)
    }

    /** deleteCookie: the expiring write makes the browser drop the cookie
        of that name; every other cookie stays. */
    method DeleteCookie(name: string)
      modifies this
      ensures writes == old(writes) + [ExpiringWrite(name)]
      ensures pairs == Without(old(pairs), name)
    {
      writes := writes + [ExpiringWrite(name)];
      pairs := Without(pairs, name);
    }
  }

  /** After deleteCookie the name reads as null, and every other name reads
      as before. */
  lemma DeletedReadsNull(pairs: seq<Pair>, name: string, other: string)
    requires WellFormed(pairs) && WellFormedName(name) && WellFormedName(other) && other != name
    ensures GetCookieValue(name, DocumentCookie(Without(pairs, name))) == None
    ensures GetCookieValue(other, DocumentCookie(Without(pairs, name))) == GetCookieValue(other, DocumentCookie(pairs))
  {
    GetCookieValueSpec(Without(pairs, name), name);
    GetCookieValueSpec(Without(pairs, name), other);
    GetCookieValueSpec(pairs, other);
    if CountName(pairs, other) == 1 {
      ValueOfWithout(pairs, name, other);
    }
  }

  lemma {:induction false} ValueOfWithout(pairs: seq<Pair>, name: string, other: string)
    requires other != name && CountName(pairs, other) > 0
    ensures ValueOf(Without(pairs, name), other) == ValueOf(pairs, other)
  {
    if pairs[0].name != other {
      ValueOfWithout(pairs[1..], name, other);
    }
  }
}
