/**
 The identity cookie, cut into chunks of at most 3596 bytes and put together again. Whether a chunk, escaped, also
 fits the 4096 bytes that section 6.1 of RFC 6265 makes every browser support depends on how many of its bytes escaping
 enlarges. Strings are byte strings: every character is below 256.
 */
module Cookies {
  import opened Wrappers
  import opened Decimal

  const MAX_COOKIE_LENGTH := 4096
  const MAX_VALUE_LENGTH := MAX_COOKIE_LENGTH - 500
  const MAX_COOKIE_NUMBER := 10

  datatype Cookie = Cookie(name: string, value: string)

  // ----- query escaping, as applied to cookie values in transit -----

  predicate IsBytes(s: string) { forall i | 0 <= i < |s| :: s[i] < 256 as char }

  predicate Unreserved(c: char) {
    'a' <= c <= 'z' || 'A' <= c <= 'Z' || IsDigit(c) || c == '-' || c == '_' || c == '.' || c == '~'
  }

  function HexDigit(n: nat): char
    requires n < 16
  {
    if n < 10 then ('0' as int + n) as char else ('A' as int + (n - 10)) as char
  }

  function HexValue(c: char): Option<nat> {
    if IsDigit(c) then Some(c as int - '0' as int)
    else if 'A' <= c <= 'F' then Some(c as int - 'A' as int + 10)
    else if 'a' <= c <= 'f' then Some(c as int - 'a' as int + 10)
    else None
  }

  function EscapeChar(c: char): string
    requires c < 256 as char
  {
    if Unreserved(c) then [c]
    else if c == ' ' then "+"
    else ['%', HexDigit(c as int / 16), HexDigit(c as int % 16)]
  }

  function QueryEscape(s: string): string
    requires IsBytes(s)
  {
    if s == [] then [] else EscapeChar(s[0]) + QueryEscape(s[1..])
  }

  function QueryUnescape(s: string): Option<string> {
    if s == [] then Some([])
    else if s[0] == '%' then
      if |s| >= 3 && HexValue(s[1]).Some? && HexValue(s[2]).Some? then
        Prepend((HexValue(s[1]).value * 16 + HexValue(s[2]).value) as char, QueryUnescape(s[3..]))
      else None
    else Prepend(if s[0] == '+' then ' ' else s[0], QueryUnescape(s[1..]))
  }

  function Prepend(c: char, rest: Option<string>): Option<string> {
    if rest.Some? then Some([c] + rest.value) else None
  }

  lemma UnescapeChar(c: char, rest: string)
    requires c < 256 as char
    ensures QueryUnescape(EscapeChar(c) + rest) == Prepend(c, QueryUnescape(rest))
  {
    var e := EscapeChar(c);
    if |e| == 1 {
      assert (e + rest)[1..] == rest;
    } else {
      assert (e + rest)[3..] == rest;
      assert (c as int / 16) * 16 + c as int % 16 == c as int;
    }
  }

  lemma {:induction false} UnescapeEscape(s: string)
    requires IsBytes(s)
    ensures QueryUnescape(QueryEscape(s)) == Some(s)
  {
    if s != [] {
      UnescapeEscape(s[1..]);
      UnescapeChar(s[0], QueryEscape(s[1..]));
      assert [s[0]] + s[1..] == s;
    }
  }

  /** What escaping does to a byte: letters, digits and four marks stay, a space becomes a plus sign, any other becomes
      a percent sign and its two hexadecimal digits. */
  lemma EscapeCharMeans(c: char)
    requires c < 256 as char
    ensures ('a' <= c <= 'z' || 'A' <= c <= 'Z' || '0' <= c <= '9' || c in "-_.~") ==> EscapeChar(c) == [c]
    ensures c == ' ' ==> EscapeChar(c) == "+"
    ensures !('a' <= c <= 'z' || 'A' <= c <= 'Z' || '0' <= c <= '9' || c in "-_.~ ") ==>
              && |EscapeChar(c)| == 3 && EscapeChar(c)[0] == '%'
              && HexValue(EscapeChar(c)[1]) == Some(c as int / 16) && HexValue(EscapeChar(c)[2]) == Some(c as int % 16)
  {}

  /** Sixteen digits, of which escaping writes the letters in upper case and unescaping reads them in either. */
  lemma HexDigits(n: nat)
    requires n < 16
    ensures HexDigit(n) == "0123456789ABCDEF"[n] && HexValue(HexDigit(n)) == Some(n)
    ensures HexValue("0123456789abcdef"[n]) == Some(n)
  {}

  predicate IsHex(c: char) { '0' <= c <= '9' || 'A' <= c <= 'F' || 'a' <= c <= 'f' }

  /** A percent sign at `i` that two hexadecimal digits do not follow. */
  ghost predicate BadEscape(s: string, i: nat) {
    i < |s| && s[i] == '%' && !(i + 2 < |s| && IsHex(s[i + 1]) && IsHex(s[i + 2]))
  }

  /** Unescaping fails exactly on a percent sign that two hexadecimal digits do not follow, and a value on which it
      fails counts as empty. */
  lemma {:induction false} UnescapeFailsIff(s: string)
    ensures QueryUnescape(s).None? <==> exists i: nat :: BadEscape(s, i)
    ensures (exists i: nat :: BadEscape(s, i)) ==> Unescaped(s) == ""
    decreases |s|
  {
    if s != [] {
      var step := if s[0] == '%' && !BadEscape(s, 0) then 3 else 1;
      if !BadEscape(s, 0) {
        UnescapeFailsIff(s[step..]);
        forall i: nat ensures BadEscape(s[step..], i) <==> BadEscape(s, i + step) {}
        if i: nat :| BadEscape(s, i) {
          assert i >= step;
          assert BadEscape(s[step..], i - step);
        }
      }
    }
  }

  /** Without percent signs, unescaping only turns plus signs into spaces. */
  lemma {:induction false} UnescapePlain(s: string)
    requires '%' !in s
    ensures QueryUnescape(s).Some? && |QueryUnescape(s).value| == |s|
    ensures forall i | 0 <= i < |s| :: QueryUnescape(s).value[i] == if s[i] == '+' then ' ' else s[i]
  {
    if s != [] {
      UnescapePlain(s[1..]);
    }
  }

  /** A percent sign and two hexadecimal digits stand for one byte, whatever follows. */
  lemma UnescapePercent(a: char, b: char, rest: string)
    requires IsHex(a) && IsHex(b)
    ensures HexValue(a).Some? && HexValue(b).Some?
    ensures QueryUnescape(['%', a, b] + rest) ==
            Prepend((16 * HexValue(a).value + HexValue(b).value) as char, QueryUnescape(rest))
  {
    assert (['%', a, b] + rest)[3..] == rest;
  }

  // ----- splitting -----

  /** The value cut into pieces of the maximal length, the last one possibly shorter. */
  function Chunks(value: string): seq<string> {
    if value == "" then []
    else if |value| <= MAX_VALUE_LENGTH then [value]
    else [value[..MAX_VALUE_LENGTH]] + Chunks(value[MAX_VALUE_LENGTH..])
  }

  function Flatten(parts: seq<string>): string {
    if parts == [] then "" else Flatten(parts[..|parts| - 1]) + parts[|parts| - 1]
  }

  lemma {:induction false} FlattenCons(first: string, rest: seq<string>)
    ensures Flatten([first] + rest) == first + Flatten(rest)
  {
    var all := [first] + rest;
    if rest == [] {
      assert all[..0] == [];
    } else {
      var n := |rest| - 1;
      FlattenCons(first, rest[..n]);
      assert all[..n + 1] == [first] + rest[..n];
      assert first + (Flatten(rest[..n]) + rest[n]) == (first + Flatten(rest[..n])) + rest[n];
    }
  }

  /** The chunks are the value, each fits, and none is empty. */
  lemma {:induction false} ChunksOfValue(value: string)
    ensures Flatten(Chunks(value)) == value
    ensures forall j | 0 <= j < |Chunks(value)| :: 0 < |Chunks(value)[j]| <= MAX_VALUE_LENGTH
    decreases |value|
  {
    if 0 < |value| <= MAX_VALUE_LENGTH {
      assert [value][..0] == [];
    } else if value != "" {
      var rest := value[MAX_VALUE_LENGTH..];
      ChunksOfValue(rest);
      FlattenCons(value[..MAX_VALUE_LENGTH], Chunks(rest));
      assert value[..MAX_VALUE_LENGTH] + rest == value;
    }
  }

  function Ceil(x: real): int { -((-x).Floor) }

  function NumberOfChunks(length: nat): int { Ceil(length as real / MAX_VALUE_LENGTH as real) }

  /** The announced number, a ceiling of a quotient, is the number of chunks, whatever the length. */
  lemma {:induction false} CeilingCountsChunks(value: string)
    ensures NumberOfChunks(|value|) == |Chunks(value)|
    decreases |value|
  {
    if |value| > MAX_VALUE_LENGTH {
      var rest := value[MAX_VALUE_LENGTH..];
      CeilingCountsChunks(rest);
      var x, y := |value| as real / MAX_VALUE_LENGTH as real, |rest| as real / MAX_VALUE_LENGTH as real;
      assert |rest| as real == |value| as real - 3596.0;
      assert x == y + 1.0;
    }
  }

  /** `y` may be what a float64 operation with the exact result `x` yields: whole numbers up to 2^53 are exact, and
      the relative error is at most 2^-53. */
  ghost predicate Float64(x: real, y: real) {
    && (0.0 <= x <= 9007199254740992.0 && x.Floor as real == x ==> y == x)
    && (x >= 0.0 ==> -x <= (y - x) * 9007199254740992.0 <= x)
  }

  /** Dividing in float64 gives the same ceiling, for every length a string can have. */
  lemma CeilingSurvivesRounding(length: nat, y: real)
    requires length < 0x20_0000_0000_0000
    requires Float64(length as real / MAX_VALUE_LENGTH as real, y)
    ensures Ceil(y) == NumberOfChunks(length)
  {
    var x, n := length as real / MAX_VALUE_LENGTH as real, NumberOfChunks(length);
    assert (n - 1) as real < x <= n as real;
    if x != n as real {
      assert length as real == x * 3596.0;
      Spacing(length, n, x);
    }
  }

  /** A quotient that is not whole keeps a distance of one part in 3596 from the whole numbers around it. */
  lemma Spacing(length: nat, n: int, x: real)
    requires x * 3596.0 == length as real && (n - 1) as real < x < n as real
    ensures (n - 1) as real + 1.0 / 3596.0 <= x <= n as real - 1.0 / 3596.0
  {
    assert (n - 1) * 3596 < length < n * 3596;
  }

  lemma {:induction false} ManyChunks(value: string, k: nat)
    ensures |Chunks(value)| > k <==> |value| > k * MAX_VALUE_LENGTH
    decreases k
  {
    if k > 0 && |value| > MAX_VALUE_LENGTH {
      ManyChunks(value[MAX_VALUE_LENGTH..], k - 1);
    }
  }

  function ChunkName(key: string, j: nat): string {
    if j == 0 then key else key + "-" + Itoa(j)
  }

  /** The cookie that carries chunk `j`: the first one also announces how many there are. */
  function CookieFor(key: string, chunks: seq<string>, j: nat): Cookie
    requires j < |chunks|
  {
    Cookie(ChunkName(key, j), if j == 0 then Itoa(|chunks|) + ":" + chunks[0] else chunks[j])
  }

  ghost predicate Written(cookies: seq<Cookie>, key: string, value: string) {
    |cookies| == |Chunks(value)| && CookiesFor(cookies, key, Chunks(value))
  }

  ghost predicate CookiesFor(cookies: seq<Cookie>, key: string, chunks: seq<string>) {
    |cookies| <= |chunks| && forall j | 0 <= j < |cookies| :: cookies[j] == CookieFor(key, chunks, j)
  }

  lemma OneMoreCookie(cookies: seq<Cookie>, key: string, chunks: seq<string>)
    requires CookiesFor(cookies, key, chunks) && |cookies| < |chunks|
    ensures CookiesFor(cookies + [CookieFor(key, chunks, |cookies|)], key, chunks)
  {}

  /** Every chunk but the last is 3596 bytes long, so chunk `j` is what stands at that place of the value. */
  lemma {:induction false} ChunkAt(value: string, j: nat)
    requires j < |Chunks(value)|
    ensures j * 3596 < |value|
    ensures Chunks(value)[j] == value[j * 3596..if (j + 1) * 3596 < |value| then (j + 1) * 3596 else |value|]
    decreases j
  {
    if j > 0 {
      var rest := value[3596..];
      assert Chunks(value)[j] == Chunks(rest)[j - 1];
      ChunkAt(rest, j - 1);
    }
  }

  /** What is written, letter by letter: under the key the number of cookies, a colon and the first 3596 bytes; under
      the key, a dash and `j` the bytes from `j * 3596` on. */
  lemma WireForm(cookies: seq<Cookie>, key: string, value: string, j: nat)
    requires Written(cookies, key, value) && j < |cookies|
    ensures j * 3596 < |value|
    ensures var chunk := value[j * 3596..if (j + 1) * 3596 < |value| then (j + 1) * 3596 else |value|];
            if j == 0 then cookies[0] == Cookie(key, Itoa(|cookies|) + ":" + chunk)
            else cookies[j] == Cookie(key + "-" + Itoa(j), chunk)
  {
    ChunkAt(value, j);
  }

  /** The chunks from position `i` on; the loop's counter may step past the end. */
  ghost function Remaining(value: string, i: nat): seq<string> {
    if i < |value| then Chunks(value[i..]) else []
  }

  /** `splitCookie`. */
  method SplitCookie(key: string, value: string) returns (cookies: seq<Cookie>)
    ensures Written(cookies, key, value)
  {
    assert Remaining(value, 0) == Chunks(value) by {
      assert value[0..] == value;
    }
    assert CookiesFor([], key, Chunks(value));
    hide Chunks, Itoa, NumberOfChunks, Remaining, CookiesFor;
    ghost var chunks := Chunks(value);
    CeilingCountsChunks(value);
    var n := NumberOfChunks(|value|);
    cookies := [];
    var i, j := 0, 0;
    while i < |value|
      invariant 0 <= i && |cookies| == j <= |chunks|
      invariant chunks[j..] == Remaining(value, i) && CookiesFor(cookies, key, chunks)
    {
      var end := i + MAX_VALUE_LENGTH;
      if end > |value| {
        end := |value|;
      }
      NextChunk(value, i, end);
      Suffix(chunks, j, value[i..end], Remaining(value, i + MAX_VALUE_LENGTH));
      var cookie := if j == 0
        then Cookie(key, Itoa(n) + ":" + value[i..end])
        else Cookie(key + "-" + Itoa(j), value[i..end]);
      OneMoreCookie(cookies, key, chunks);
      cookies := cookies + [cookie];
      i, j := i + MAX_VALUE_LENGTH, j + 1;
    }
    NothingRemains(value, i);
  }

  lemma Suffix<T>(s: seq<T>, j: nat, head: T, tail: seq<T>)
    requires j <= |s| && s[j..] == [head] + tail
    ensures j < |s| && s[j] == head && s[j + 1..] == tail
  {
    assert s[j] == s[j..][0] && s[j + 1..] == s[j..][1..];
  }

  lemma NothingRemains(value: string, i: nat)
    requires i >= |value|
    ensures Remaining(value, i) == []
  {}

  lemma NextChunk(value: string, i: nat, end: nat)
    requires i < end <= |value|
    requires end == if i + MAX_VALUE_LENGTH > |value| then |value| else i + MAX_VALUE_LENGTH
    ensures Remaining(value, i) == [value[i..end]] + Remaining(value, i + MAX_VALUE_LENGTH)
  {
    if end < |value| {
      assert value[i..][MAX_VALUE_LENGTH..] == value[end..];
      assert value[i..][..MAX_VALUE_LENGTH] == value[i..end];
    } else {
      assert value[i..] == value[i..end];
    }
  }

  datatype CookieError = TooManyChunks | MissingCookie | InvalidCookie | BadCount

  /** `MakeCookieMetadata`: refuses exactly the values longer than ten chunks hold. */
  method MakeCookieMetadata(key: string, value: string) returns (r: Result<seq<Cookie>, CookieError>)
    ensures r.Err? <==> |value| > 10 * 3596
    ensures r.Ok? ==> Written(r.value, key, value)
  {
    CeilingCountsChunks(value);
    ManyChunks(value, MAX_COOKIE_NUMBER);
    if NumberOfChunks(|value|) > MAX_COOKIE_NUMBER {
      return Err(TooManyChunks);
    }
    var cookies := SplitCookie(key, value);
    r := Ok(cookies);
  }

  // ----- joining -----

  predicate AllDigits(s: string) { s != [] && forall i | 0 <= i < |s| :: IsDigit(s[i]) }

  /** `strconv.Atoi` on 64 bits. */
  function Atoi(s: string): Option<int> {
    var digits := if s != [] && (s[0] == '-' || s[0] == '+') then s[1..] else s;
    if !AllDigits(digits) then None
    else
      var n: int := Value(digits) as int * (if s[0] == '-' then -1 else 1);
      if -0x8000_0000_0000_0000 <= n < 0x8000_0000_0000_0000 then Some(n) else None
  }

  lemma AtoiItoa(n: nat)
    requires n < 0x8000_0000_0000_0000
    ensures Atoi(Itoa(n)) == Some(n)
  {
    ItoaDigits(n);
    ValueOfItoa(n);
    assert IsDigit(Itoa(n)[0]);
  }

  /** Which strings are numbers: an optional sign and digits, in the range of 64 bits. */
  lemma AtoiMeans(digits: string)
    requires AllDigits(digits)
    ensures Atoi(digits) == if Value(digits) < 0x8000_0000_0000_0000 then Some(Value(digits)) else None
    ensures Atoi("+" + digits) == Atoi(digits)
    ensures Atoi("-" + digits) == if Value(digits) <= 0x8000_0000_0000_0000 then Some(-(Value(digits) as int)) else None
  {
    assert IsDigit(digits[0]);
    assert ("+" + digits)[1..] == digits && ("-" + digits)[1..] == digits;
  }

  lemma AtoiRejects(s: string)
    ensures Atoi(s).Some? ==> AllDigits(s) || (s != [] && (s[0] == '+' || s[0] == '-') && AllDigits(s[1..]))
  {}

  /** The index of the first colon, or the length if there is none. */
  function Colon(s: string): (k: nat)
    ensures k <= |s| && (k < |s| ==> s[k] == ':') && forall i | 0 <= i < k :: s[i] != ':'
  {
    if s == [] then 0 else if s[0] == ':' then 0 else 1 + Colon(s[1..])
  }

  lemma ColonAfter(a: string, b: string)
    requires forall i | 0 <= i < |a| :: a[i] != ':'
    ensures Colon(a + ":" + b) == |a|
  {
    var s := a + ":" + b;
    assert s[|a|] == ':';
    assert forall i | 0 <= i < |a| :: s[i] == a[i];
  }

  /** `strings.Split` at every colon. */
  function Split(s: string): (parts: seq<string>)
    ensures |parts| >= 1
  {
    var k := Colon(s);
    if k == |s| then [s] else [s[..k]] + Split(s[k + 1..])
  }

  /** `strings.Join` with a colon. */
  function Join(parts: seq<string>): string {
    if parts == [] then "" else if |parts| == 1 then parts[0] else parts[0] + ":" + Join(parts[1..])
  }

  lemma JoinCons(first: string, parts: seq<string>)
    requires parts != []
    ensures Join([first] + parts) == first + ":" + Join(parts)
  {
    assert ([first] + parts)[1..] == parts;
  }

  lemma {:induction false} JoinSplit(s: string)
    ensures Join(Split(s)) == s
    decreases |s|
  {
    hide Colon, Join;
    var k := Colon(s);
    if k < |s| {
      JoinSplit(s[k + 1..]);
      JoinCons(s[..k], Split(s[k + 1..]));
      CutAt(s, k);
    } else {
      JoinOne(s);
    }
  }

  lemma JoinOne(s: string)
    ensures Join([s]) == s
  {}

  /** Splitting and joining again all but the first part cuts the string at its first colon. */
  lemma SplitCuts(s: string)
    ensures |Split(s)| >= 2 <==> Colon(s) < |s|
    ensures Colon(s) < |s| ==> Split(s)[0] == s[..Colon(s)] && Join(Split(s)[1..]) == s[Colon(s) + 1..]
  {
    hide Join, Colon;
    var k := Colon(s);
    if k < |s| {
      JoinSplit(s[k + 1..]);
      assert Split(s) == [s[..k]] + Split(s[k + 1..]);
      assert Split(s)[1..] == Split(s[k + 1..]);
    }
  }

  /** The value the last cookie of that name carries once unescaped; a malformed one counts as empty. */
  function Latest(jar: seq<Cookie>, name: string): Option<string> {
    if jar == [] then None
    else
      var c := jar[|jar| - 1];
      if c.name == name then Some(Unescaped(c.value)) else Latest(jar[..|jar| - 1], name)
  }

  function Unescaped(s: string): string {
    match QueryUnescape(s)
    case Some(t) => t
    case None => ""
  }

  function OrEmpty(v: Option<string>): string {
    match v
    case Some(t) => t
    case None => ""
  }

  /** The last cookie of a name counts, and there is none exactly if no cookie has the name. */
  lemma {:induction false} LatestMeans(jar: seq<Cookie>, name: string)
    ensures Latest(jar, name).None? <==> forall d | d in jar :: d.name != name
    ensures Latest(jar, name).Some? ==>
              exists i | 0 <= i < |jar| ::
                && jar[i].name == name && Latest(jar, name) == Some(Unescaped(jar[i].value))
                && forall j | i < j < |jar| :: jar[j].name != name
  {
    if jar != [] {
      var n := |jar| - 1;
      LatestMeans(jar[..n], name);
      assert jar == jar[..n] + [jar[n]];
      assert forall i | 0 <= i < n :: jar[..n][i] == jar[i];
      if jar[n].name != name && Latest(jar[..n], name).Some? {
        var i :| 0 <= i < n && jar[..n][i].name == name && Latest(jar[..n], name) == Some(Unescaped(jar[..n][i].value))
                 && forall j | i < j < n :: jar[..n][j].name != name;
        assert jar[i].name == name;
        forall j | i < j < |jar| ensures jar[j].name != name { assert j < n ==> jar[..n][j] == jar[j]; }
      }
    }
  }

  /** The chunks from 1 on, missing ones being empty. */
  function Rest(jar: seq<Cookie>, key: string, n: int): string
    decreases n
  {
    if n <= 1 then "" else Rest(jar, key, n - 1) + OrEmpty(Latest(jar, ChunkName(key, n - 1)))
  }

  /** What `JoinCookies` returns. */
  function Joined(jar: seq<Cookie>, key: string): Result<string, CookieError> {
    match Latest(jar, key)
    case None => Err(MissingCookie)
    case Some(token) =>
      var k := Colon(token);
      if k == |token| then Err(InvalidCookie)
      else
        match Atoi(token[..k])
        case None => Err(BadCount)
        case Some(n) => Ok(token[k + 1..] + Rest(jar, key, n))
  }

  /** When joining fails: there is no cookie of the key, it has no colon, or what stands before its first colon is no
      number. A chunk that is missing is skipped. */
  lemma JoinedFails(jar: seq<Cookie>, key: string)
    ensures Joined(jar, key) == Err(MissingCookie) <==> forall d | d in jar :: d.name != key
    ensures Joined(jar, key) == Err(InvalidCookie) <==> Latest(jar, key).Some? && ':' !in Latest(jar, key).value
    ensures Joined(jar, key) == Err(BadCount) <==>
            Latest(jar, key).Some? && exists a, b :: Latest(jar, key).value == a + ":" + b && ':' !in a && Atoi(a).None?
    ensures forall n: nat | n >= 1 && Latest(jar, key + "-" + Itoa(n)).None? ::
              Rest(jar, key, n + 1) == Rest(jar, key, n)
  {
    hide Colon, Latest, Atoi;
    LatestMeans(jar, key);
    forall n: nat | n >= 1 && Latest(jar, key + "-" + Itoa(n)).None?
      ensures Rest(jar, key, n + 1) == Rest(jar, key, n)
    {
      assert ChunkName(key, n) == key + "-" + Itoa(n);
      assert Rest(jar, key, n) + "" == Rest(jar, key, n);
    }
    if Latest(jar, key).Some? {
      var token := Latest(jar, key).value;
      CutAtColon(token);
      forall a, b | token == a + ":" + b && ':' !in a ensures Colon(token) < |token| && a == token[..Colon(token)] {
        CutOnce(token, a, b);
      }
    }
  }

  lemma CutAtColon(s: string)
    ensures Colon(s) < |s| <==> ':' in s
    ensures Colon(s) < |s| ==> s == s[..Colon(s)] + ":" + s[Colon(s) + 1..] && ':' !in s[..Colon(s)]
  {
    CutAt(s, Colon(s));
  }

  lemma CutAt(s: string, k: nat)
    requires k <= |s| && (k < |s| ==> s[k] == ':') && forall i | 0 <= i < k :: s[i] != ':'
    ensures k < |s| <==> ':' in s
    ensures k < |s| ==> s == s[..k] + ":" + s[k + 1..] && ':' !in s[..k]
  {}

  /** There is only one way to cut a string at its first colon. */
  lemma CutOnce(s: string, a: string, b: string)
    requires s == a + ":" + b && ':' !in a
    ensures Colon(s) < |s| && a == s[..Colon(s)]
  {
    hide Colon;
    ColonAfter(a, b);
    assert (a + ":" + b)[..|a|] == a;
  }

  /** The chunk a jar holds under the key, a dash and `i`, empty if there is none. */
  function Held(jar: seq<Cookie>, key: string, i: nat): string {
    match Latest(jar, key + "-" + Itoa(i))
    case Some(chunk) => chunk
    case None => ""
  }

  /** The chunks from the second on, if there are `n` in all. */
  function HeldChunks(jar: seq<Cookie>, key: string, n: int): seq<string> {
    seq(if n > 1 then n - 1 else 0, i requires 0 <= i => Held(jar, key, i + 1))
  }

  lemma OneMoreHeld(jar: seq<Cookie>, key: string, n: int)
    ensures n <= 1 ==> HeldChunks(jar, key, n) == []
    ensures n > 1 ==> HeldChunks(jar, key, n) == HeldChunks(jar, key, n - 1) + [Held(jar, key, n - 1)]
  {
    hide Held;
  }

  lemma FlattenMore(parts: seq<string>, last: string)
    ensures Flatten(parts + [last]) == Flatten(parts) + last && Flatten([]) == ""
  {
    assert (parts + [last])[..|parts|] == parts;
  }

  lemma {:induction false} RestMeans(jar: seq<Cookie>, key: string, n: int)
    ensures Rest(jar, key, n) == Flatten(HeldChunks(jar, key, n))
    decreases n
  {
    hide Latest, Itoa, Flatten, HeldChunks;
    OneMoreHeld(jar, key, n);
    FlattenMore([], "");
    if n > 1 {
      RestMeans(jar, key, n - 1);
      FlattenMore(HeldChunks(jar, key, n - 1), Held(jar, key, n - 1));
    }
  }

  /** What joining yields for any jar: the first cookie says how many chunks there are, and the value is what follows
      its colon, followed by the other chunks in order. */
  lemma JoinedMeans(jar: seq<Cookie>, key: string, count: string, first: string, n: int)
    requires Latest(jar, key) == Some(count + ":" + first) && ':' !in count && Atoi(count) == Some(n)
    ensures Joined(jar, key) ==
            Ok(first + Flatten(seq(if n > 1 then n - 1 else 0, i requires 0 <= i => Held(jar, key, i + 1))))
  {
    hide Latest, Atoi, Rest, Flatten, Held;
    var token := count + ":" + first;
    ColonAfter(count, first);
    assert token[..|count|] == count && token[|count| + 1..] == first;
    RestMeans(jar, key, n);
  }

  ghost predicate Collects(cookies: map<string, string>, key: string, jar: seq<Cookie>) {
    forall name | key <= name :: Latest(jar, name) == if name in cookies then Some(cookies[name]) else None
  }

  lemma Lookup(cookies: map<string, string>, key: string, jar: seq<Cookie>, name: string)
    requires Collects(cookies, key, jar) && key <= name
    ensures Latest(jar, name) == if name in cookies then Some(cookies[name]) else None
  {}

  /** The first loop of `JoinCookies`: of the cookies whose name starts with the key, the last of each name. */
  method Collect(key: string, jar: seq<Cookie>) returns (cookies: map<string, string>)
    ensures Collects(cookies, key, jar)
  {
    cookies := map[];
    for i := 0 to |jar|
      invariant Collects(cookies, key, jar[..i])
    {
      assert jar[..i + 1][..i] == jar[..i];
      if key <= jar[i].name {
        cookies := cookies[jar[i].name := Unescaped(jar[i].value)];
      }
    }
    assert jar[..|jar|] == jar;
  }

  lemma RestStep(jar: seq<Cookie>, key: string, n: nat)
    requires n >= 1
    ensures key <= ChunkName(key, n)
    ensures Rest(jar, key, n + 1) == Rest(jar, key, n) + OrEmpty(Latest(jar, ChunkName(key, n)))
    ensures forall k | k <= 1 :: Rest(jar, key, k) == ""
  {}

  /** The last loop of `JoinCookies`: the chunks in order. */
  method AppendChunks(key: string, ghost jar: seq<Cookie>, cookies: map<string, string>, n: int, first: string)
    returns (sb: string)
    requires Collects(cookies, key, jar)
    ensures sb == first + Rest(jar, key, n)
  {
    hide Collects, Latest, Itoa, Rest, ChunkName;
    RestStep(jar, key, 1);
    sb := first;
    for i := 1 to if n < 1 then 1 else n
      invariant sb == first + Rest(jar, key, i)
    {
      var name := ChunkName(key, i);
      RestStep(jar, key, i);
      Lookup(cookies, key, jar, name);
      sb := sb + (if name in cookies then cookies[name] else "");
      assert first + Rest(jar, key, i + 1) == (first + Rest(jar, key, i)) + OrEmpty(Latest(jar, name));
    }
  }

  method JoinCookies(key: string, jar: seq<Cookie>) returns (r: Result<string, CookieError>)
    ensures r == Joined(jar, key)
  {
    var cookies := Collect(key, jar);
    if key !in cookies {
      return Err(MissingCookie);
    }
    var token := cookies[key];
    assert Latest(jar, key) == Some(token);
    var parts := Split(token);
    SplitCuts(token);
    if |parts| < 2 {
      return Err(InvalidCookie);
    }
    match Atoi(parts[0])
    case None =>
      r := Err(BadCount);
    case Some(n) =>
      var sb := AppendChunks(key, jar, cookies, n, Join(parts[1..]));
      r := Ok(sb);
  }

  // ----- the round trip -----

  /** The jar carries, escaped, every cookie that was written: whatever else it holds and in whatever order,
      the last cookie of each written name is the written one. */
  ghost predicate Carries(jar: seq<Cookie>, cookies: seq<Cookie>) {
    forall j | 0 <= j < |cookies| ::
      IsBytes(cookies[j].value) && Latest(jar, cookies[j].name) == Some(Unescaped(QueryEscape(cookies[j].value)))
  }

  lemma Carried(jar: seq<Cookie>, cookies: seq<Cookie>, key: string, value: string, j: nat)
    requires Written(cookies, key, value) && Carries(jar, cookies) && j < |cookies|
    ensures Latest(jar, ChunkName(key, j)) == Some(CookieFor(key, Chunks(value), j).value)
  {
    hide Chunks, QueryEscape, QueryUnescape, Latest;
    assert cookies[j] == CookieFor(key, Chunks(value), j);
    UnescapeEscape(cookies[j].value);
  }

  lemma {:induction false} RestIsValue(jar: seq<Cookie>, cookies: seq<Cookie>, key: string, value: string, m: nat)
    requires Written(cookies, key, value) && Carries(jar, cookies) && 1 <= m <= |cookies|
    ensures Rest(jar, key, m) == Flatten(Chunks(value)[1..m])
    decreases m
  {
    hide Chunks, Carries, Latest, ChunkName;
    var chunks := Chunks(value);
    if m > 1 {
      var j := m - 1;
      RestIsValue(jar, cookies, key, value, j);
      Carried(jar, cookies, key, value, j);
      assert chunks[1..m][..j - 1] == chunks[1..j];
    }
  }

  lemma FirstChunk(jar: seq<Cookie>, cookies: seq<Cookie>, key: string, value: string)
    requires Written(cookies, key, value) && Carries(jar, cookies) && 1 <= |cookies| <= 10
    ensures Joined(jar, key) == Ok(Chunks(value)[0] + Rest(jar, key, |cookies|))
  {
    hide Chunks, Carries, Latest, Itoa, Value, Rest;
    var chunks, n := Chunks(value), |cookies|;
    var token := Itoa(n) + ":" + chunks[0];
    Carried(jar, cookies, key, value, 0);
    ItoaDigits(n);
    ColonAfter(Itoa(n), chunks[0]);
    AtoiItoa(n);
    assert token[..|Itoa(n)|] == Itoa(n);
    assert token[|Itoa(n)| + 1..] == chunks[0];
  }

  /** Whatever the order of the cookies, and next to any stale ones, joining gives the value back, unless it is
      empty: for the empty value no cookie is written, and joining fails if there is no older one. */
  lemma RoundTrip(jar: seq<Cookie>, cookies: seq<Cookie>, key: string, value: string)
    requires Written(cookies, key, value) && Carries(jar, cookies)
    requires |value| <= MAX_COOKIE_NUMBER * MAX_VALUE_LENGTH
    ensures value != "" ==> Joined(jar, key) == Ok(value)
    ensures value == "" ==> cookies == [] && (Latest(jar, key).None? ==> Joined(jar, key) == Err(MissingCookie))
  {
    if value != "" {
      hide Carries, Latest, Joined, Rest;
      var chunks := Chunks(value);
      ManyChunks(value, MAX_COOKIE_NUMBER);
      FirstChunk(jar, cookies, key, value);
      RestIsValue(jar, cookies, key, value, |cookies|);
      FlattenCons(chunks[0], chunks[1..]);
      assert [chunks[0]] + chunks[1..] == chunks;
      assert chunks[1..|cookies|] == chunks[1..];
      ChunksOfValue(value);
    }
  }

  /** A jar that holds a cookie and no other of its name yields it, wherever it stands. */
  lemma {:induction false} HoldingSuffices(jar: seq<Cookie>, c: Cookie)
    requires c in jar && forall d | d in jar && d.name == c.name :: d == c
    ensures Latest(jar, c.name) == Some(Unescaped(c.value))
    decreases |jar|
  {
    var n := |jar| - 1;
    if jar[n].name != c.name {
      assert c in jar[..n];
      HoldingSuffices(jar[..n], c);
    }
  }

  lemma NamesDiffer(key: string, i: nat, j: nat)
    ensures ChunkName(key, i) == ChunkName(key, j) <==> i == j
  {
    var prefix := key + "-";
    assert i > 0 ==> ChunkName(key, i)[|prefix|..] == Itoa(i);
    assert j > 0 ==> ChunkName(key, j)[|prefix|..] == Itoa(j);
    ValueOfItoa(i);
    ValueOfItoa(j);
  }

  /** A cookie as the browser returns it. */
  function Sent(c: Cookie): Cookie
    requires IsBytes(c.value)
  {
    Cookie(c.name, QueryEscape(c.value))
  }

  /** The jar holds every written cookie, and no other cookie of a written name. */
  ghost predicate Holds(jar: seq<Cookie>, cookies: seq<Cookie>) {
    forall j | 0 <= j < |cookies| ::
      && IsBytes(cookies[j].value)
      && Sent(cookies[j]) in jar
      && forall d | d in jar && d.name == cookies[j].name :: d == Sent(cookies[j])
  }

  lemma HoldsCarries(jar: seq<Cookie>, cookies: seq<Cookie>)
    requires Holds(jar, cookies)
    ensures Carries(jar, cookies)
  {
    hide QueryEscape, Latest, Unescaped;
    forall j | 0 <= j < |cookies|
      ensures Latest(jar, cookies[j].name) == Some(Unescaped(QueryEscape(cookies[j].value)))
    {
      HoldingSuffices(jar, Sent(cookies[j]));
    }
  }

  /** Not the name of any of the first `n` chunks. */
  ghost predicate OtherName(name: string, key: string, n: nat) {
    forall j: nat | j < n :: name != ChunkName(key, j)
  }

  /** A chunk that a longer value left behind has another name than those just written, and so has every cookie
      whose name does not start with the key. */
  lemma StaleIsOther(key: string, n: nat, k: nat, name: string)
    requires k >= n
    ensures OtherName(ChunkName(key, k), key, n)
    ensures !(key <= name) ==> OtherName(name, key, n)
  {
    forall j: nat | j < n ensures ChunkName(key, k) != ChunkName(key, j) && key <= ChunkName(key, j) {
      NamesDiffer(key, k, j);
    }
  }

  /** The written cookies, in any order and any number of times, next to any cookies of other names, stale chunks
      included: reading gives back the value. */
  lemma RoundTripAmongStale(jar: seq<Cookie>, cookies: seq<Cookie>, key: string, value: string)
    requires Written(cookies, key, value) && value != "" && |value| <= MAX_COOKIE_NUMBER * MAX_VALUE_LENGTH
    requires forall j | 0 <= j < |cookies| :: IsBytes(cookies[j].value) && Sent(cookies[j]) in jar
    requires forall d | d in jar ::
               OtherName(d.name, key, |cookies|) || exists j | 0 <= j < |cookies| :: d == Sent(cookies[j])
    ensures Joined(jar, key) == Ok(value)
  {
    hide Chunks, QueryEscape, Latest, ChunkName, Joined;
    forall j, d | 0 <= j < |cookies| && d in jar && d.name == cookies[j].name ensures d == Sent(cookies[j]) {
      assert cookies[j].name == ChunkName(key, j);
      var i :| 0 <= i < |cookies| && d == Sent(cookies[i]);
      NamesDiffer(key, i, j);
    }
    HoldsCarries(jar, cookies);
    RoundTrip(jar, cookies, key, value);
  }

  // ----- the size of an escaped cookie -----

  /** The bytes that escaping turns into three. */
  function Enlarged(s: string): nat {
    if s == [] then 0 else Enlarged(s[1..]) + if Unreserved(s[0]) || s[0] == ' ' then 0 else 1
  }

  lemma {:induction false} EscapedLength(s: string)
    requires IsBytes(s)
    ensures |QueryEscape(s)| == |s| + 2 * Enlarged(s)
  {
    if s != [] {
      EscapedLength(s[1..]);
    }
  }

  lemma {:induction false} EnlargedConcat(a: string, b: string)
    ensures Enlarged(a + b) == Enlarged(a) + Enlarged(b)
  {
    if a == [] {
      assert a + b == b;
    } else {
      assert (a + b)[1..] == a[1..] + b;
      EnlargedConcat(a[1..], b);
    }
  }

  lemma {:induction false} DigitsNotEnlarged(s: string)
    requires forall i | 0 <= i < |s| :: IsDigit(s[i])
    ensures Enlarged(s) == 0
  {
    if s != [] {
      DigitsNotEnlarged(s[1..]);
    }
  }

  /** What precedes a chunk in its cookie: the announced number in the first one. */
  function Lead(n: nat, j: nat): string { if j == 0 then Itoa(n) + ":" else "" }

  lemma LeadEnlarged(n: nat, j: nat)
    requires n <= 10
    ensures |Lead(n, j)| <= 3 && Enlarged(Lead(n, j)) == if j == 0 then 1 else 0
  {
    ItoaDigits(n);
    DigitsNotEnlarged(Itoa(n));
    EnlargedConcat(Itoa(n), ":");
    assert |Itoa(n)| <= 2;
  }

  /** Cookie `j`, escaped, with its name and attributes fits 4096 bytes exactly if twice the number of enlarged bytes of
      its chunk fits what name, announced number, chunk and attributes leave. */
  lemma FitsExactly(cookies: seq<Cookie>, key: string, value: string, j: nat, attributes: nat)
    requires Written(cookies, key, value) && j < |cookies| <= MAX_COOKIE_NUMBER && IsBytes(cookies[j].value)
    ensures var chunk, c := Chunks(value)[j], Sent(cookies[j]);
            && |c.name| + |c.value| + attributes <= MAX_COOKIE_LENGTH <==>
               2 * Enlarged(chunk) + |chunk| + |ChunkName(key, j)| + |Lead(|cookies|, j)| + (if j == 0 then 2 else 0)
               + attributes <= MAX_COOKIE_LENGTH
  {
    hide Chunks, QueryEscape, Enlarged, Itoa;
    var n, chunk := |cookies|, Chunks(value)[j];
    assert cookies[j] == CookieFor(key, Chunks(value), j);
    assert cookies[j].value == Lead(n, j) + chunk;
    EscapedLength(cookies[j].value);
    EnlargedConcat(Lead(n, j), chunk);
    LeadEnlarged(n, j);
  }

  /** The 500 bytes of headroom suffice as long as name, attributes and enlargement stay within them. */
  lemma HeadroomSuffices(cookies: seq<Cookie>, key: string, value: string, j: nat, attributes: nat)
    requires Written(cookies, key, value) && j < |cookies| <= MAX_COOKIE_NUMBER && IsBytes(cookies[j].value)
    requires |key| + attributes + 2 * Enlarged(Chunks(value)[j]) <= 493
    ensures |Sent(cookies[j]).name| + |Sent(cookies[j]).value| + attributes <= MAX_COOKIE_LENGTH
  {
    hide Chunks, QueryEscape, Enlarged, Written, Sent;
    FitsExactly(cookies, key, value, j, attributes);
    LeadEnlarged(|cookies|, j);
    ChunksOfValue(value);
    assert |ChunkName(key, j)| <= |key| + 2 by {
      assert j < 10;
    }
    WrittenCount(cookies, key, value);
  }

  lemma WrittenCount(cookies: seq<Cookie>, key: string, value: string)
    requires Written(cookies, key, value)
    ensures |cookies| == |Chunks(value)|
  {}

  /** A chunk that does not fit: one of nothing but colons escapes to three times its length. */
  lemma ColonsDoNotFit(key: string, cookies: seq<Cookie>, attributes: nat)
    requires Written(cookies, key, Colons(MAX_VALUE_LENGTH)) && IsBytes(cookies[0].value)
    ensures |cookies| == 1 && |Sent(cookies[0]).name| + |Sent(cookies[0]).value| + attributes > MAX_COOKIE_LENGTH
  {
    ColonsEnlarged(MAX_VALUE_LENGTH);
    FitsExactly(cookies, key, Colons(MAX_VALUE_LENGTH), 0, attributes);
  }

  function Colons(n: nat): string { seq(n, _ => ':') }

  lemma {:induction false} ColonsEnlarged(n: nat)
    ensures Enlarged(Colons(n)) == n
  {
    if n > 0 {
      assert Colons(n)[1..] == Colons(n - 1);
      ColonsEnlarged(n - 1);
    }
  }
}
