/**
 * The range-aware static file handler (src/httpserver/httpserver.py):
 * parsing the `Range: bytes=` request header of section 2.1 of RFC 7233,
 * the 206 response head with its Content-Range of section 4.2, the chunked
 * copy of the requested byte range, and the translation of a URL path to a
 * file below the served directory.
 *
 * The socket, the file system and the MIME and date tables are outside the
 * model: whether the file opens, its size and its content are inputs, and
 * `normpath` and `unquote` are given functions.
 */
module HttpServer {
  import opened Wrappers
  import opened BleExceptions
  import opened PyBytes
  import opened Decimal

  function Min(a: int, b: int): int { if a <= b then a else b }
  function Max(a: int, b: int): int { if a >= b then a else b }

  // ------------------------------------------------------ Range header

  predicate StartsWith(s: string, prefix: string)
  {
    |prefix| <= |s| && s[..|prefix|] == prefix
  }

  /** The length of the run of ASCII digits that `s` begins with (what `\d+` matches greedily). */
  function DigitRun(s: string): (n: nat)
    ensures n <= |s| && AllDigits(s[..n])
    ensures n < |s| ==> !IsDigit(s[n])
  {
    if s == [] || !IsDigit(s[0]) then 0
    else
      var k := DigitRun(s[1..]);
      assert s[..1 + k] == [s[0]] + s[1..][..k];
      1 + k
  }

  /** The optional `(\d+)?` after the dash: the digits it starts with, if any. */
  function SecondBound(after: string): Option<nat>
  {
    var m := DigitRun(after);
    if m == 0 then None else Some(ValueOf(after[..m]))
  }

  /** `(\d+)\-(\d+)?` against what follows "bytes=". */
  function BytesRange(rest: string): (r: (Option<nat>, Option<nat>))
    ensures r.0.None? ==> r.1.None?
  {
    var n := DigitRun(rest);
    if n == 0 || n == |rest| || rest[n] != '-' then (None, None)
    else (Some(ValueOf(rest[..n])), SecondBound(rest[n + 1..]))
  }

  /**
   * _get_range_header: `^bytes=(\d+)\-(\d+)?` against the Range header.
   * Only the first range of a range set is read; the suffix form
   * "bytes=-N" does not match.
   */
  function GetRangeHeader(header: Option<string>): (r: (Option<nat>, Option<nat>))
    ensures r.0.None? ==> r.1.None?
    ensures r.0.Some? ==> header.Some? && StartsWith(header.value, "bytes=")
  {
    if header.None? || !StartsWith(header.value, "bytes=") then (None, None)
    else BytesRange(header.value[6..])
  }

  /** A header that starts with "bytes=" is read by its remainder. */
  lemma RangeAfterPrefix(t: string)
    ensures GetRangeHeader(Some("bytes=" + t)) == BytesRange(t)
  {
    var h := "bytes=" + t;
    assert h[..6] == "bytes=";
    assert h[6..] == t;
  }

  /** A digit run stops where the digits do. */
  lemma {:induction false} DigitRunOfDigits(d: string, t: string)
    requires AllDigits(d)
    requires t == [] || !IsDigit(t[0])
    ensures DigitRun(d + t) == |d|
    decreases |d|
  {
    if d != [] {
      assert (d + t)[1..] == d[1..] + t;
      DigitRunOfDigits(d[1..], t);
    } else {
      assert d + t == t;
    }
  }

  /** Digits then a dash: the digits are the start, and the rest decides the end. */
  lemma RangeOfParts(d: string, t: string)
    requires |d| > 0 && AllDigits(d)
    ensures BytesRange(d + ['-'] + t) == (Some(ValueOf(d)), SecondBound(t))
  {
    var rest := d + ['-'] + t;
    assert rest == d + (['-'] + t);
    DigitRunOfDigits(d, ['-'] + t);
    assert rest[..|d|] == d;
    assert rest[|d|] == '-';
    assert rest[|d| + 1..] == t;
  }

  /** The end bound reads back what Show printed, up to the first non-digit. */
  lemma SecondBoundOfShow(b: nat, tail: string)
    requires tail == [] || !IsDigit(tail[0])
    ensures SecondBound(Show(b) + tail) == Some(b)
  {
    DigitRunOfDigits(Show(b), tail);
    assert (Show(b) + tail)[..|Show(b)|] == Show(b);
    ValueOfShow(b);
  }

  /** The header "bytes=A-B" followed by anything but a digit reads back as (A, B). */
  lemma ClosedRangeRoundTrip(a: nat, b: nat, tail: string)
    requires tail == [] || !IsDigit(tail[0])
    ensures GetRangeHeader(Some("bytes=" + Show(a) + "-" + Show(b) + tail)) == (Some(a), Some(b))
  {
    var t := Show(a) + ['-'] + (Show(b) + tail);
    assert "bytes=" + Show(a) + "-" + Show(b) + tail == "bytes=" + t;
    RangeAfterPrefix(t);
    RangeOfParts(Show(a), Show(b) + tail);
    SecondBoundOfShow(b, tail);
    ValueOfShow(a);
  }

  /** The open-ended header "bytes=A-" followed by anything but a digit reads back as (A, None). */
  lemma OpenRangeRoundTrip(a: nat, tail: string)
    requires tail == [] || !IsDigit(tail[0])
    ensures GetRangeHeader(Some("bytes=" + Show(a) + "-" + tail)) == (Some(a), None)
  {
    var t := Show(a) + ['-'] + tail;
    assert "bytes=" + Show(a) + "-" + tail == "bytes=" + t;
    RangeAfterPrefix(t);
    RangeOfParts(Show(a), tail);
    DigitRunOfDigits([], tail);
    assert [] + tail == tail;
    ValueOfShow(a);
  }

  /** Without a digit straight after "bytes=" (the suffix form "bytes=-N" included) there is no range. */
  lemma NoLeadingDigitNoRange(t: string)
    requires t == [] || !IsDigit(t[0])
    ensures GetRangeHeader(Some("bytes=" + t)) == (None, None)
  {
    RangeAfterPrefix(t);
  }

  // ------------------------------------------------------ response head

  /** What the handler writes before the body. */
  datatype Emit =
    | Status(code: int)
    | HeaderLine(name: string, value: string)
    | EndHeaders
    | ErrorPage(code: int, explain: string)

  /** The last byte served: an absent or too large end is moved to the last byte of the file. */
  function ClampedTo(to: Option<int>, size: nat): int
  {
    if to.None? || to.value >= size then size - 1 else to.value
  }

  /** The served range always ends inside the file and honours a requested end that does. */
  lemma ClampedToSpec(to: Option<int>, size: nat)
    ensures ClampedTo(to, size) <= size - 1
    ensures to.Some? && to.value < size ==> ClampedTo(to, size) == to.value
    ensures to.None? ==> ClampedTo(to, size) == size - 1
  {
  }

  function ContentRange(from: int, to: int, size: nat): string
  {
    "bytes " + ShowInt(from) + "-" + ShowInt(to) + "/" + Show(size)
  }

  /** The status line and headers send_range_head writes for an opened file. */
  function HeadLines(from: Option<int>, to: int, size: nat, ctype: string, mtime: string): seq<Emit>
  {
    [Status(if from.None? then 200 else 206), HeaderLine("Content-type", ctype)]
    + (if from.Some?
       then [HeaderLine("Content-Range", ContentRange(from.value, to, size)),
             HeaderLine("Content-Length", ShowInt(1 + to - from.value))]
       else [HeaderLine("Content-Length", Show(size))])
    + [HeaderLine("Last-Modified", mtime), EndHeaders]
  }

  /** A ranged response is 206 and states the range; an unranged one is 200 and states the file size. */
  lemma HeadLinesSpec(from: Option<int>, to: int, size: nat, ctype: string, mtime: string)
    ensures HeadLines(from, to, size, ctype, mtime)[0] == Status(if from.Some? then 206 else 200)
    ensures from.Some? ==> HeadLinesLength(from, to, size, ctype, mtime) == ShowInt(1 + to - from.value)
    ensures from.None? ==> HeadLinesLength(from, to, size, ctype, mtime) == Show(size)
    ensures (exists i :: 0 <= i < |HeadLines(from, to, size, ctype, mtime)|
               && HeadLines(from, to, size, ctype, mtime)[i].HeaderLine?
               && HeadLines(from, to, size, ctype, mtime)[i].name == "Content-Range") <==> from.Some?
  {
    var h := HeadLines(from, to, size, ctype, mtime);
    if from.Some? {
      assert h[2].name == "Content-Range";
    } else {
      assert |h| == 5;
      assert h[1].name == "Content-type" && h[2].name == "Content-Length" && h[3].name == "Last-Modified";
    }
  }

  /** The Content-Length header's value. */
  function HeadLinesLength(from: Option<int>, to: int, size: nat, ctype: string, mtime: string): string
  {
    var h := HeadLines(from, to, size, ctype, mtime);
    if from.Some? then h[3].value else h[2].value
  }

  /**
   * A satisfiable range (its start inside the file, not after its end) is
   * served in full from inside the file: between 1 and size - from bytes.
   */
  lemma SatisfiableRangeInsideFile(from: int, to: Option<int>, size: nat)
    requires 0 <= from <= ClampedTo(to, size)
    ensures from < size
    ensures 1 <= 1 + ClampedTo(to, size) - from <= size - from
  {
  }

  /**
   * A range starting beyond the end of the file is not refused with 416
   * (section 4.4 of RFC 7233): the head still says 206 and the Content-Length
   * is 1 + (size - 1) - from, zero or negative.
   */
  lemma RangePastEndOfFile(from: nat, to: Option<int>, size: nat, ctype: string, mtime: string)
    requires from >= size
    ensures HeadLines(Some(from), ClampedTo(to, size), size, ctype, mtime)[0] == Status(206)
    ensures 1 + ClampedTo(to, size) - from <= 0
    ensures from > size ==> HeadLinesLength(Some(from), ClampedTo(to, size), size, ctype, mtime)[0] == '-'
  {
  }

  // --------------------------------------------------------- file ends

  /** The bytes of `s` from `lo` on, at most `n` of them (empty past the end). */
  function Window(s: seq<byte>, lo: nat, n: nat): (w: seq<byte>)
    ensures |w| == Max(0, Min(lo + n, |s|) - lo)
  {
    s[Min(lo, |s|)..Min(lo + n, |s|)]
  }

  /** A regular file opened for reading: its content and a position that may lie past the end. */
  class InFile {
    const content: seq<byte>
    var pos: nat
    /** the sizes passed to read(), in order */
    var requests: seq<int>

    constructor(content: seq<byte>)
      ensures this.content == content && pos == 0 && requests == []
    {
      this.content := content;
      pos := 0;
      requests := [];
    }

    method Seek(p: nat)
      modifies this
      ensures pos == p && requests == old(requests)
    {
      pos := p;
    }

    /** read(n): up to n bytes from the position; nothing at or past the end. */
    method Read(n: nat) returns (buf: seq<byte>)
      modifies this
      ensures buf == Window(content, old(pos), n)
      ensures pos == old(pos) + |buf|
      ensures requests == old(requests) + [n]
    {
      buf := Window(content, pos, n);
      pos := pos + |buf|;
      requests := requests + [n];
    }
  }

  class OutFile {
    var written: seq<byte>

    constructor()
      ensures written == []
    {
      written := [];
    }

    method Write(buf: seq<byte>)
      modifies this
      ensures written == old(written) + buf
    {
      written := written + buf;
    }
  }

  const BufLength := 64 * 1024

  /** How many bytes copy_file_range copies from a file of `size` bytes. */
  function CopyCount(from: nat, to: int, size: nat): (n: nat)
  {
    if 1 + to - from <= 0 then 0 else Min(1 + to - from, Max(0, size - from))
  }

  /**
   * For a satisfiable range the body has exactly the length the head
   * announced, and it never exceeds the requested length.
   */
  lemma BodyMatchesContentLength(from: nat, to: Option<int>, size: nat)
    requires from <= ClampedTo(to, size)
    ensures CopyCount(from, ClampedTo(to, size), size) == 1 + ClampedTo(to, size) - from
  {
    SatisfiableRangeInsideFile(from, to, size);
  }

  /** Never more than the requested span, and nothing once the start lies past the end. */
  lemma CopyCountBounds(from: nat, to: int, size: nat)
    ensures CopyCount(from, to, size) <= Max(0, 1 + to - from)
    ensures from >= size ==> CopyCount(from, to, size) == 0
  {
  }

  /** The loop's step: a read from where the last window ended extends the window by what it returned. */
  lemma WindowGrows(s: seq<byte>, lo: nat, n: nat, k: nat)
    requires lo + n <= |s| || n == 0
    ensures Window(s, lo, n) + Window(s, lo + n, k) == Window(s, lo, n + |Window(s, lo + n, k)|)
  {
    if lo > |s| {
    } else {
      var hi := Min(lo + n + k, |s|);
      assert Window(s, lo, n) == s[lo..lo + n];
      assert Window(s, lo + n, k) == s[lo + n..hi];
      assert Window(s, lo, n + |Window(s, lo + n, k)|) == s[lo..hi];
      assert s[lo..lo + n] + s[lo + n..hi] == s[lo..hi];
    }
  }

  /** `after` is `before` followed by read sizes of 1 to 64 KiB. */
  ghost predicate Chunked(before: seq<int>, after: seq<int>)
  {
    && |before| <= |after| && after[..|before|] == before
    && forall i :: |before| <= i < |after| ==> 0 < after[i] <= BufLength
  }

  lemma ChunkedStep(before: seq<int>, after: seq<int>, n: int)
    requires Chunked(before, after) && 0 < n <= BufLength
    ensures Chunked(before, after + [n])
  {
    assert (after + [n])[..|before|] == after[..|before|];
  }

  /** The loop of copy_file_range, from a file already positioned at `from`. */
  method CopyRange(inFile: InFile, outFile: OutFile, from: nat, bytesToCopy: int) returns (copied: nat)
    requires inFile.pos == from
    modifies inFile, outFile
    ensures copied == (if bytesToCopy <= 0 then 0 else Min(bytesToCopy, Max(0, |inFile.content| - from)))
    ensures outFile.written == old(outFile.written) + Window(inFile.content, from, copied)
    ensures Chunked(old(inFile.requests), inFile.requests)
  {
    copied := 0;
    assert old(inFile.requests)[..|old(inFile.requests)|] == old(inFile.requests);
    while copied < bytesToCopy
      invariant copied <= Max(0, bytesToCopy)
      invariant copied <= Max(0, |inFile.content| - from)
      invariant inFile.pos == from + copied
      invariant outFile.written == old(outFile.written) + Window(inFile.content, from, copied)
      invariant Chunked(old(inFile.requests), inFile.requests)
      decreases bytesToCopy - copied
    {
      var want := Min(BufLength, bytesToCopy - copied);
      ChunkedStep(old(inFile.requests), inFile.requests, want);
      var buf := inFile.Read(want);
      if |buf| == 0 {
        break;
      }
      WindowGrows(inFile.content, from, copied, want);
      outFile.Write(buf);
      copied := copied + |buf|;
    }
  }

  // ------------------------------------------------------ path mapping

  /** `s.split(c, 1)[0]`: everything before the first `c`. */
  function BeforeFirst(s: string, c: char): (r: string)
    ensures c !in r && |r| <= |s| && r == s[..|r|]
    ensures |r| < |s| ==> s[|r|] == c
  {
    if s == [] then []
    else if s[0] == c then []
    else
      var rest := BeforeFirst(s[1..], c);
      assert s[..1 + |rest|] == [s[0]] + s[1..][..|rest|];
      [s[0]] + rest
  }

  /** A prefix without `c` is kept whole, and the search goes on after it. */
  lemma {:induction false} BeforeFirstSkip(p: string, c: char, s: string)
    requires c !in p
    ensures BeforeFirst(p + s, c) == p + BeforeFirst(s, c)
    decreases |p|
  {
    if p != [] {
      assert (p + s)[1..] == p[1..] + s;
      BeforeFirstSkip(p[1..], c, s);
    } else {
      assert p + s == s;
    }
  }

  /** `s.split('/')`. */
  function SplitSlash(s: string): (ws: seq<string>)
    ensures |ws| >= 1
    ensures forall w :: w in ws ==> '/' !in w
    decreases |s|
  {
    var piece := BeforeFirst(s, '/');
    if |piece| == |s| then [s]
    else
      var rest := SplitSlash(s[|piece| + 1..]);
      [piece] + rest
  }

  /** `[_f for _f in words if _f]` */
  function NonEmpty(ws: seq<string>): (r: seq<string>)
    ensures forall w :: w in r ==> w in ws && w != ""
    ensures forall w :: w in ws && w != "" ==> w in r
  {
    if ws == [] then []
    else if ws[0] == "" then NonEmpty(ws[1..])
    else [ws[0]] + NonEmpty(ws[1..])
  }

  /** posixpath.split(p)[1]: the part after the last '/'. */
  function Tail(p: string): (t: string)
    ensures '/' !in p ==> t == p
    decreases |p|
  {
    if p == [] then []
    else if p[|p| - 1] == '/' then []
    else Tail(p[..|p| - 1]) + [p[|p| - 1]]
  }

  /** posixpath.join(a, b) for a `b` without a leading '/'. */
  function Join(a: string, b: string): (r: string)
  {
    if |b| > 0 && b[0] == '/' then b
    else if a == [] || a[|a| - 1] == '/' then a + b
    else a + ['/'] + b
  }

  /** The loop of translate_path over the remaining words. */
  function JoinWords(path: string, words: seq<string>): string
    decreases |words|
  {
    if words == [] then path
    else
      var word := Tail(words[0]);
      if word == "." || word == ".." then JoinWords(path, words[1..])
      else JoinWords(Join(path, word), words[1..])
  }

  /** What translate_path returns. */
  function Translated(path: string, directory: string, normpath: string -> string, unquote: string -> string): string
  {
    var p := BeforeFirst(BeforeFirst(path, '?'), '#');
    JoinWords(directory, NonEmpty(SplitSlash(normpath(unquote(p)))))
  }

  /** The words translate_path keeps. */
  function Visible(ws: seq<string>): (r: seq<string>)
    ensures forall w :: w in r ==> w in ws && w != "." && w != ".."
  {
    if ws == [] then []
    else if ws[0] == "." || ws[0] == ".." then Visible(ws[1..])
    else [ws[0]] + Visible(ws[1..])
  }

  /** "/w1/w2/...": each kept word under its own separator. */
  function Slashed(ws: seq<string>): string
  {
    if ws == [] then [] else ['/'] + ws[0] + Slashed(ws[1..])
  }

  /**
   * Below a directory that does not end in '/', the translated path is the
   * directory followed by "/" and one kept word per component: no empty,
   * "." or ".." component is ever added, so the path cannot climb out.
   */
  lemma {:induction false} JoinWordsShape(path: string, words: seq<string>)
    requires path != [] && path[|path| - 1] != '/'
    requires forall w :: w in words ==> w != "" && '/' !in w
    ensures JoinWords(path, words) == path + Slashed(Visible(words))
    decreases |words|
  {
    if words != [] {
      var word := words[0];
      assert Tail(word) == word;
      assert forall w :: w in words[1..] ==> w in words;
      if word == "." || word == ".." {
        JoinWordsShape(path, words[1..]);
      } else {
        JoinKeptWord(path, word);
        JoinWordsShape(path + ['/'] + word, words[1..]);
        SlashedCons(path, word, Visible(words[1..]));
      }
    }
  }

  /** Joining a word below such a directory adds "/" and the word, and the result again does not end in '/'. */
  lemma JoinKeptWord(path: string, word: string)
    requires path != [] && path[|path| - 1] != '/'
    requires word != [] && '/' !in word
    ensures Join(path, word) == path + ['/'] + word
    ensures var p := path + ['/'] + word; p != [] && p[|p| - 1] != '/'
  {
    var p := path + ['/'] + word;
    assert p[|p| - 1] == word[|word| - 1];
    assert word[|word| - 1] in word;
  }

  lemma SlashedCons(path: string, word: string, rest: seq<string>)
    ensures path + Slashed([word] + rest) == path + ['/'] + word + Slashed(rest)
  {
    assert ([word] + rest)[0] == word && ([word] + rest)[1..] == rest;
  }

  /** Whatever the request, the translated path begins with the served directory. */
  lemma {:induction false} JoinWordsUnder(path: string, words: seq<string>)
    requires forall w :: w in words ==> w != "" && '/' !in w
    ensures StartsWith(JoinWords(path, words), path)
    decreases |words|
  {
    if words != [] {
      var word := Tail(words[0]);
      assert forall w :: w in words[1..] ==> w in words;
      if word == "." || word == ".." {
        JoinWordsUnder(path, words[1..]);
      } else {
        var p := Join(path, word);
        assert StartsWith(p, path) by {
          assert p[..|path|] == path;
        }
        JoinWordsUnder(p, words[1..]);
        var r := JoinWords(p, words[1..]);
        assert r[..|path|] == r[..|p|][..|path|];
      }
    }
  }

  /** translate_path never leaves the directory it serves. */
  lemma TranslatedUnder(path: string, directory: string, normpath: string -> string, unquote: string -> string)
    ensures StartsWith(Translated(path, directory, normpath, unquote), directory)
  {
    var p := BeforeFirst(BeforeFirst(path, '?'), '#');
    var ws := SplitSlash(normpath(unquote(p)));
    JoinWordsUnder(directory, NonEmpty(ws));
  }

  /** Stripping the query and then the fragment keeps a path that has neither. */
  lemma StripNothing(p: string)
    requires '?' !in p && '#' !in p
    ensures BeforeFirst(BeforeFirst(p, '?'), '#') == p
  {
    BeforeFirstSkip(p, '?', []);
    BeforeFirstSkip(p, '#', []);
    assert p + [] == p;
  }

  lemma StripQuery(p: string, q: string)
    requires '?' !in p && '#' !in p
    ensures BeforeFirst(BeforeFirst(p + ['?'] + q, '?'), '#') == p
  {
    assert BeforeFirst(['?'] + q, '?') == [];
    BeforeFirstSkip(p, '?', ['?'] + q);
    assert p + ['?'] + q == p + (['?'] + q);
    assert p + [] == p;
    StripNothing(p);
  }

  lemma StripFragment(p: string, f: string)
    requires '?' !in p && '#' !in p
    ensures BeforeFirst(BeforeFirst(p + ['#'] + f, '?'), '#') == p
  {
    var f' := BeforeFirst(f, '?');
    assert BeforeFirst(['#'] + f, '?') == ['#'] + f';
    BeforeFirstSkip(p, '?', ['#'] + f);
    assert p + ['#'] + f == p + (['#'] + f);
    assert BeforeFirst(['#'] + f', '#') == [];
    BeforeFirstSkip(p, '#', ['#'] + f');
    assert p + [] == p;
  }

  /** The query string and the fragment play no part in the translation. */
  lemma QueryAndFragmentIgnored(p: string, q: string, f: string, directory: string, normpath: string -> string, unquote: string -> string)
    requires '?' !in p && '#' !in p
    ensures Translated(p + "?" + q, directory, normpath, unquote) == Translated(p, directory, normpath, unquote)
    ensures Translated(p + "#" + f, directory, normpath, unquote) == Translated(p, directory, normpath, unquote)
  {
    StripNothing(p);
    StripQuery(p, q);
    StripFragment(p, f);
    assert p + "?" + q == p + ['?'] + q;
    assert p + "#" + f == p + ['#'] + f;
  }

  // ----------------------------------------------------------- handler

  /** RequestHandler's range state and everything written as the response head. */
  class RangeRequestHandler {
    var RangeFrom: Option<int>
    var RangeTo: Option<int>
    var Sent: seq<Emit>

    constructor()
      ensures RangeFrom.None? && RangeTo.None? && Sent == []
    {
      RangeFrom := None;
      RangeTo := None;
      Sent := [];
    }

    /** `self.range_from, self.range_to = self._get_range_header()`, as do_GET and do_HEAD begin. */
    method ReadRange(header: Option<string>)
      modifies this
      ensures RangeFrom == (match GetRangeHeader(header).0 case None => None case Some(n) => Some(n as int))
      ensures RangeTo == (match GetRangeHeader(header).1 case None => None case Some(n) => Some(n as int))
      ensures Sent == old(Sent)
    {
      var r := GetRangeHeader(header);
      RangeFrom := if r.0.None? then None else Some(r.0.value);
      RangeTo := if r.1.None? then None else Some(r.1.value);
    }

    /** The status line and the headers, one send_header at a time. */
    static method HeadFor(from: Option<int>, to: int, size: nat, ctype: string, mtime: string) returns (lines: seq<Emit>)
      ensures lines == HeadLines(from, to, size, ctype, mtime)
    {
      if from.None? {
        lines := [Status(200)];
      } else {
        lines := [Status(206)];
      }
      lines := lines + [HeaderLine("Content-type", ctype)];
      if from.Some? {
        lines := lines + [HeaderLine("Content-Range", ContentRange(from.value, to, size))];
        lines := lines + [HeaderLine("Content-Length", ShowInt(1 + to - from.value))];
      } else {
        lines := lines + [HeaderLine("Content-Length", Show(size))];
      }
      lines := lines + [HeaderLine("Last-Modified", mtime), EndHeaders];
    }

    /**
     * send_range_head for a path that is a file.  `fileSize` is None when
     * opening the file fails.  Returns whether a file object is handed back.
     */
    method SendRangeHead(fileSize: Option<nat>, ctype: string, mtime: string) returns (handedBack: bool)
      modifies this
      ensures handedBack <==> fileSize.Some?
      ensures RangeFrom == old(RangeFrom)
      ensures fileSize.None? ==> Sent == old(Sent) + [ErrorPage(404, "File not found")] && RangeTo == old(RangeTo)
      ensures fileSize.Some? && RangeFrom.Some? ==>
                RangeTo == Some(ClampedTo(old(RangeTo), fileSize.value))
                && Sent == old(Sent) + HeadLines(RangeFrom, RangeTo.value, fileSize.value, ctype, mtime)
      ensures fileSize.Some? && RangeFrom.None? ==>
                RangeTo == old(RangeTo) && Sent == old(Sent) + HeadLines(None, 0, fileSize.value, ctype, mtime)
    {
      if fileSize.None? {
        Sent := Sent + [ErrorPage(404, "File not found")];
        return false;
      }
      var size := fileSize.value;
      if RangeFrom.Some? {
        if RangeTo.None? || RangeTo.value >= size {
          var last: int := (size as int) - 1;
          RangeTo := Some(last);
        }
      }
      var lines := HeadFor(RangeFrom, if RangeFrom.Some? then RangeTo.value else 0, size, ctype, mtime);
      Sent := Sent + lines;
      return true;
    }

    /**
     * copy_file_range: copy the inclusive range from the input file in
     * reads of at most 64 KiB, stopping at the first empty read.
     */
    method CopyFileRange(inFile: InFile?, outFile: OutFile) returns (r: Outcome<int, PyException>)
      modifies inFile, outFile
      ensures inFile == null ==> r == Raised(Builtin("Exception", "in_file is None"))
      ensures inFile != null && RangeFrom.None? ==> r == Raised(Builtin("Exception", "range_from is None"))
      ensures inFile != null && RangeFrom.Some? && RangeTo.None? ==> r == Raised(Builtin("Exception", "range_to is None"))
      ensures inFile != null && RangeFrom.Some? && RangeTo.Some? && RangeFrom.value < 0 ==>
                r == Raised(Builtin("ValueError", "negative seek value"))
      ensures r.Raised? ==> outFile.written == old(outFile.written)
      ensures inFile != null && RangeFrom.Some? && RangeTo.Some? && RangeFrom.value >= 0 ==>
                var n := CopyCount(RangeFrom.value, RangeTo.value, |inFile.content|);
                && r == Returned(n)
                && outFile.written == old(outFile.written) + Window(inFile.content, RangeFrom.value, n)
                && Chunked(old(inFile.requests), inFile.requests)
    {
      if inFile == null {
        return Raised(Builtin("Exception", "in_file is None"));
      }
      if RangeFrom.None? {
        return Raised(Builtin("Exception", "range_from is None"));
      }
      if RangeTo.None? {
        return Raised(Builtin("Exception", "range_to is None"));
      }
      if RangeFrom.value < 0 {
        return Raised(Builtin("ValueError", "negative seek value"));
      }
      var from: nat := RangeFrom.value;
      inFile.Seek(from);
      var bytesToCopy := 1 + RangeTo.value - from;
      var copied := CopyRange(inFile, outFile, from, bytesToCopy);
      return Returned(copied);
    }
  }

  /**
   * translate_path: drop the query and the fragment, normalise, and join
   * the remaining words onto the served directory, skipping "." and "..".
   */
  method TranslatePath(path: string, directory: string, normpath: string -> string, unquote: string -> string)
    returns (r: string)
    ensures r == Translated(path, directory, normpath, unquote)
  {
    var p := BeforeFirst(path, '?');
    p := BeforeFirst(p, '#');
    p := normpath(unquote(p));
    var words := NonEmpty(SplitSlash(p));
    r := directory;
    var i := 0;
    while i < |words|
      invariant 0 <= i <= |words|
      invariant JoinWords(r, words[i..]) == Translated(path, directory, normpath, unquote)
    {
      assert words[i..][1..] == words[i + 1..];
      var word := Tail(words[i]);
      if word != "." && word != ".." {
        r := Join(r, word);
      }
      i := i + 1;
    }
  }
}
