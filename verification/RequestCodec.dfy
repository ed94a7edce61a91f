/**
 * The text of a request: printed by the client with sprintf into a buffer of
 * 256 bytes, split by the server into a four-digit code and a tail, and the
 * tail scanned field by field with sscanf.
 */
module RequestCodec {
  import opened Types
  import opened Requests

  const REQ_MAX_SIZE: nat := 256

  const NUL: char := '\0'

  predicate IsDigit(c: char) { '0' <= c <= '9' }

  predicate IsSpace(c: char) {
    c == ' ' || c == '\t' || c == '\n' || c == '\r' || c == '\U{000B}' || c == '\U{000C}'
  }

  /** The classes of characters the scanners run over. */
  datatype Class = Space | Ink | Digit | Text

  predicate In(p: Class, c: char) {
    match p
    case Space => IsSpace(c)
    case Ink => !IsSpace(c)
    case Digit => IsDigit(c)
    case Text => c != NUL
  }

  /** Length of the longest prefix of `s` that stays in the class. */
  function Run(p: Class, s: string): (k: nat)
    ensures k <= |s|
    ensures forall i | 0 <= i < k :: In(p, s[i])
    ensures k < |s| ==> !In(p, s[k])
  {
    if s == [] || !In(p, s[0]) then 0 else 1 + Run(p, s[1..])
  }

  // ---- Decimal numbers ----

  function DigitChar(d: int): (c: char)
    requires 0 <= d < 10
    ensures IsDigit(c) && DigitValue(c) == d
  {
    ('0' as int + d) as char
  }

  function DigitValue(c: char): int
    requires IsDigit(c)
  {
    c as int - '0' as int
  }

  function PrintNat(n: nat): (s: string)
    ensures |s| > 0 && forall i | 0 <= i < |s| :: IsDigit(s[i])
  {
    if n < 10 then [DigitChar(n)] else PrintNat(n / 10) + [DigitChar(n % 10)]
  }

  function ParseNat(s: string): int
    requires forall i | 0 <= i < |s| :: IsDigit(s[i])
  {
    if s == [] then 0 else 10 * ParseNat(s[..|s| - 1]) + DigitValue(s[|s| - 1])
  }

  lemma {:induction false} ParseUndoesPrint(n: nat)
    ensures ParseNat(PrintNat(n)) == n
  {
    if n < 10 {
      assert PrintNat(n)[..0] == [];
      assert ParseNat(PrintNat(n)[..0]) == 0;
    } else {
      ParseUndoesPrint(n / 10);
      assert PrintNat(n)[..|PrintNat(n)| - 1] == PrintNat(n / 10);
    }
  }

  /** `%d` and `%ld`. */
  function PrintInt(n: int): string {
    if n < 0 then "-" + PrintNat(-n) else PrintNat(n)
  }

  /** A value read off the text, with what is left of the text. */
  datatype Scanned<+T> = Stuck | Got(value: T, rest: string)

  function ScanDigits(u: string): Scanned<int> {
    var k := Run(Digit, u);
    if k == 0 then Stuck else Got(ParseNat(u[..k]), u[k..])
  }

  function ScanSigned(t: string): Scanned<int> {
    if t != [] && t[0] == '-' then
      match ScanDigits(t[1..])
      case Got(v, rest) => Got(-v, rest)
      case Stuck => Stuck
    else if t != [] && t[0] == '+' then ScanDigits(t[1..])
    else ScanDigits(t)
  }

  /** `%d` and `%llu`: skips white space, then takes an optional sign and digits. */
  function ScanInt(s: string): Scanned<int> {
    ScanSigned(s[Run(Space, s)..])
  }

  /** `%s`: skips white space, then takes everything up to the next white space. */
  function ScanWord(s: string): Scanned<string> {
    var t := s[Run(Space, s)..];
    var k := Run(Ink, t);
    if k == 0 then Stuck else Got(t[..k], t[k..])
  }

  // ---- Fields ----

  datatype Kind = IntKind | U64Kind | WordKind

  datatype Field = IntField(i: Int32) | U64Field(u: U64) | WordField(word: string)

  function KindOf(f: Field): Kind {
    match f
    case IntField(_) => IntKind
    case U64Field(_) => U64Kind
    case WordField(_) => WordKind
  }

  ghost predicate Match(ks: seq<Kind>, fs: seq<Field>) {
    |ks| == |fs| && forall i | 0 <= i < |ks| :: KindOf(fs[i]) == ks[i]
  }

  /** The bits of an unsigned 64-bit value read as `long`. */
  function AsLong(u: U64): int {
    if u < 0x8000_0000_0000_0000 then u else u - TWO_64
  }

  /** What `%llu` stores for the number written in the text. */
  function AsU64(v: int): U64 {
    if 0 <= v < TWO_64 then v
    else if -TWO_64 < v < 0 then v + TWO_64
    else ULLONG_MAX
  }

  /** Offsets and counts are printed with `%ld` and scanned with `%llu`. */
  function PrintField(f: Field): string {
    match f
    case IntField(i) => PrintInt(i)
    case U64Field(u) => PrintInt(AsLong(u))
    case WordField(w) => w
  }

  function ScanField(k: Kind, s: string): Scanned<Field> {
    match k
    case WordKind =>
      (match ScanWord(s)
       case Got(w, rest) => Got(WordField(w), rest)
       case Stuck => Stuck)
    case U64Kind =>
      (match ScanInt(s)
       case Got(v, rest) => Got(U64Field(AsU64(v)), rest)
       case Stuck => Stuck)
    case IntKind =>
      (match ScanInt(s)
       case Got(v, rest) => if InInt32(v) then Got(IntField(v), rest) else Stuck
       case Stuck => Stuck)
  }

  predicate InInt32(v: int) { -0x8000_0000 <= v < 0x8000_0000 }

  function PrintFields(fs: seq<Field>): string {
    if fs == [] then ""
    else if |fs| == 1 then PrintField(fs[0])
    else PrintField(fs[0]) + " " + PrintFields(fs[1..])
  }

  function ScanFields(ks: seq<Kind>, s: string): (r: Option<seq<Field>>)
    ensures r.Some? ==> Match(ks, r.value)
  {
    if ks == [] then Some([])
    else
      match ScanField(ks[0], s)
      case Stuck => None
      case Got(f, rest) =>
        match ScanFields(ks[1..], rest)
        case None => None
        case Some(fs) => Some([f] + fs)
  }

  /** A name that `%s` takes as one piece. */
  predicate OneWord(w: string) {
    |w| > 0 && forall i | 0 <= i < |w| :: !IsSpace(w[i])
  }

  ghost predicate WordsClean(fs: seq<Field>) {
    forall i | 0 <= i < |fs| :: fs[i].WordField? ==> OneWord(fs[i].word)
  }

  /** What may follow a field: nothing, or the separating blank. */
  predicate Ends(rest: string) { rest == [] || rest[0] == ' ' }

  lemma {:induction false} RunIs(p: Class, s: string, k: nat)
    requires k <= |s|
    requires forall i | 0 <= i < k :: In(p, s[i])
    requires k < |s| ==> !In(p, s[k])
    ensures Run(p, s) == k
  {
    if k > 0 {
      assert In(p, s[0]);
      RunIs(p, s[1..], k - 1);
    }
  }

  lemma ScanUndoesPrintNat(n: nat, rest: string)
    requires Ends(rest)
    ensures ScanDigits(PrintNat(n) + rest) == Got(n, rest)
  {
    var u := PrintNat(n) + rest;
    RunIs(Digit, u, |PrintNat(n)|);
    assert u[..|PrintNat(n)|] == PrintNat(n) && u[|PrintNat(n)|..] == rest;
    ParseUndoesPrint(n);
  }

  lemma ScanUndoesPrintInt(n: int, rest: string, blank: string)
    requires Ends(rest) && (blank == [] || blank == " ")
    ensures ScanInt(blank + PrintInt(n) + rest) == Got(n, rest)
  {
    var s := blank + PrintInt(n) + rest;
    RunIs(Space, s, |blank|);
    assert s[|blank|..] == PrintInt(n) + rest;
    SignedUndoesPrint(n, rest);
  }

  lemma SignedUndoesPrint(n: int, rest: string)
    requires Ends(rest)
    ensures ScanSigned(PrintInt(n) + rest) == Got(n, rest)
  {
    if n < 0 {
      var u := PrintNat(-n) + rest;
      ScanUndoesPrintNat(-n, rest);
      Associative(['-'], PrintNat(-n), rest);
      MinusNegates(u);
    } else {
      ScanUndoesPrintNat(n, rest);
      NoSignIsPlain(PrintNat(n) + rest);
    }
  }

  lemma Associative(a: string, b: string, c: string)
    ensures a + b + c == a + (b + c)
  {
  }

  lemma MinusNegates(u: string)
    requires ScanDigits(u).Got?
    ensures ScanSigned(['-'] + u) == Got(-ScanDigits(u).value, ScanDigits(u).rest)
  {
    assert (['-'] + u)[1..] == u;
  }

  lemma NoSignIsPlain(t: string)
    requires t != [] && IsDigit(t[0])
    ensures ScanSigned(t) == ScanDigits(t)
  {
  }

  lemma ScanUndoesPrintWord(w: string, rest: string, blank: string)
    requires OneWord(w) && Ends(rest) && (blank == [] || blank == " ")
    ensures ScanWord(blank + w + rest) == Got(w, rest)
  {
    var s := blank + w + rest;
    RunIs(Space, s, |blank|);
    var t := s[|blank|..];
    assert t == w + rest;
    RunIs(Ink, t, |w|);
    assert t[..|w|] == w && t[|w|..] == rest;
  }

  lemma ScanUndoesPrintField(f: Field, rest: string, blank: string)
    requires f.WordField? ==> OneWord(f.word)
    requires Ends(rest) && (blank == [] || blank == " ")
    ensures ScanField(KindOf(f), blank + PrintField(f) + rest) == Got(f, rest)
  {
    match f
    case IntField(i) => ScanUndoesPrintInt(i, rest, blank);
    case U64Field(u) => ScanUndoesPrintInt(AsLong(u), rest, blank);
    case WordField(w) => ScanUndoesPrintWord(w, rest, blank);
  }

  lemma {:induction false} ScanUndoesPrintFields(ks: seq<Kind>, fs: seq<Field>, blank: string)
    requires Match(ks, fs) && WordsClean(fs) && (blank == [] || blank == " ")
    ensures ScanFields(ks, blank + PrintFields(fs)) == Some(fs)
  {
    if fs != [] {
      var tail := if |fs| == 1 then "" else " " + PrintFields(fs[1..]);
      assert blank + PrintFields(fs) == blank + PrintField(fs[0]) + tail;
      ScanUndoesPrintField(fs[0], tail, blank);
      assert fs == [fs[0]] + fs[1..];
      if |fs| > 1 {
        ScanUndoesPrintFields(ks[1..], fs[1..], " ");
      }
    }
  }

  lemma ScannedFieldIsClean(k: Kind, s: string)
    requires NUL !in s && ScanField(k, s).Got?
    ensures var Got(f, rest) := ScanField(k, s);
            NUL !in rest && (f.WordField? ==> OneWord(f.word) && NUL !in f.word)
  {
    if k == WordKind {
      var t := s[Run(Space, s)..];
      assert NUL !in t;
    } else {
      ScannedIntLeavesSuffix(s);
    }
  }

  lemma ScannedIntLeavesSuffix(s: string)
    requires NUL !in s && ScanInt(s).Got?
    ensures NUL !in ScanInt(s).rest
  {
    var t := s[Run(Space, s)..];
    assert NUL !in t;
    var u := if t != [] && (t[0] == '-' || t[0] == '+') then t[1..] else t;
    assert NUL !in u;
    assert ScanInt(s).rest == u[Run(Digit, u)..];
  }

  /** Whatever the text, a scanned name is one word. */
  lemma {:induction false} ScannedWordsAreClean(ks: seq<Kind>, s: string)
    requires NUL !in s && ScanFields(ks, s).Some?
    ensures var fs := ScanFields(ks, s).value;
            forall i | 0 <= i < |fs| && fs[i].WordField? :: OneWord(fs[i].word) && NUL !in fs[i].word
  {
    if ks != [] {
      ScannedFieldIsClean(ks[0], s);
      ScannedWordsAreClean(ks[1..], ScanField(ks[0], s).rest);
    }
  }

  // ---- Requests ----

  function Code(r: Request): nat {
    match r
    case Consent(_, _, _) => 0
    case Close(_, _) => 2
    case Create(_, _, _) => 3
    case ExitGroup(_) => 4
    case HandshakeNamed(_, _, _) => 5
    case HandshakeAnonymous(_, _) => 6
    case Open(_, _, _) => 8
    case Read(_, _, _, _) => 9
    case Rename(_, _, _) => 10
    case Write(_, _, _, _) => 11
  }

  /** The fields in the order the client's format strings print them. */
  function Fields(r: Request): seq<Field> {
    match r
    case Consent(tid, path, source) => [IntField(tid), WordField(path), WordField(source)]
    case Close(tid, path) => [IntField(tid), WordField(path)]
    case Create(tid, fd, path) => [IntField(tid), IntField(fd), WordField(path)]
    case ExitGroup(tid) => [IntField(tid)]
    case HandshakeNamed(tid, pid, app) => [IntField(tid), IntField(pid), WordField(app)]
    case HandshakeAnonymous(tid, pid) => [IntField(tid), IntField(pid)]
    case Open(tid, fd, path) => [IntField(tid), IntField(fd), WordField(path)]
    case Read(path, tid, fd, end) => [WordField(path), IntField(tid), IntField(fd), U64Field(end)]
    case Rename(tid, o, n) => [IntField(tid), WordField(o), WordField(n)]
    case Write(tid, fd, path, size) => [IntField(tid), IntField(fd), WordField(path), U64Field(size)]
  }

  /** Zeros in front, up to a width of four. */
  function Pad(s: string): string
    decreases 4 - |s|
  {
    if |s| >= 4 then s else Pad("0" + s)
  }

  /** `%04d` of a code. */
  function PrintCode(code: nat): string {
    Pad(PrintNat(code))
  }

  function Encode(r: Request): string {
    PrintCode(Code(r)) + " " + PrintFields(Fields(r))
  }

  /** The scan formats of the server's handlers, reached through the table of codes. */
  function Formats(code: int): Option<seq<Kind>> {
    match code
    case 0 => Some([IntKind, WordKind, WordKind])
    case 2 => Some([IntKind, WordKind])
    case 3 => Some([IntKind, IntKind, WordKind])
    case 4 => Some([IntKind])
    case 5 => Some([IntKind, IntKind, WordKind])
    case 6 => Some([IntKind, IntKind])
    case 7 => Some([IntKind, IntKind, WordKind])
    case 8 => Some([IntKind, IntKind, WordKind])
    case 9 => Some([WordKind, IntKind, IntKind, U64Kind])
    case 10 => Some([IntKind, WordKind, WordKind])
    case 11 => Some([IntKind, IntKind, WordKind, U64Kind])
    case _ => None
  }

  function Build(code: int, fs: seq<Field>): Option<Request>
    requires Formats(code).Some? && Match(Formats(code).value, fs)
  {
    match code
    case 0 => Some(Consent(fs[0].i, fs[1].word, fs[2].word))
    case 2 => Some(Close(fs[0].i, fs[1].word))
    case 3 => Some(Create(fs[0].i, fs[1].i, fs[2].word))
    case 4 => Some(ExitGroup(fs[0].i))
    case 5 => Some(HandshakeNamed(fs[0].i, fs[1].i, fs[2].word))
    case 6 => Some(HandshakeAnonymous(fs[0].i, fs[1].i))
    case 7 => Some(Create(fs[0].i, fs[1].i, fs[2].word))
    case 8 => Some(Open(fs[0].i, fs[1].i, fs[2].word))
    case 9 => Some(Read(fs[0].word, fs[1].i, fs[2].i, fs[3].u))
    case 10 => Some(Rename(fs[0].i, fs[1].word, fs[2].word))
    case 11 => Some(Write(fs[0].i, fs[1].i, fs[2].word, fs[3].u))
  }

  function CString(frame: string): string {
    frame[..Run(Text, frame)]
  }

  /** How many of the first four characters `from_chars` consumes. */
  function CodeLength(text: string): (k: nat)
    ensures k <= |text| && k <= 4 && (k < 4 && k < |text| ==> !IsDigit(text[k]))
    ensures forall i | 0 <= i < k :: IsDigit(text[i])
  {
    Run(Digit, if |text| < 4 then text else text[..4])
  }

  /** `read_next_request` followed by the scan of the handler the code selects. */
  function Decode(frame: string): Option<Request> {
    var text := CString(frame);
    var k := CodeLength(text);
    if k == 0 || k + 1 > |text| then None
    else Dispatch(ParseNat(text[..k]), text[k + 1..])
  }

  function Dispatch(code: int, tail: string): Option<Request> {
    match Formats(code)
    case None => None
    case Some(ks) =>
      match ScanFields(ks, tail)
      case None => None
      case Some(fs) => Build(code, fs)
  }

  /** Every name is non-empty and holds neither white space nor the terminator. */
  ghost predicate NamesClean(r: Request) {
    forall i | 0 <= i < |Fields(r)| && Fields(r)[i].WordField? ::
      OneWord(Fields(r)[i].word) && NUL !in Fields(r)[i].word
  }

  lemma {:induction false} LeadingZero(s: string)
    requires forall i | 0 <= i < |s| :: IsDigit(s[i])
    ensures ParseNat("0" + s) == ParseNat(s)
  {
    var t := "0" + s;
    if s == [] {
      assert t[..0] == [] && ParseNat(t[..0]) == 0;
    } else {
      assert t[..|t| - 1] == "0" + s[..|s| - 1];
      LeadingZero(s[..|s| - 1]);
    }
  }

  lemma {:induction false} PadKeepsNumber(s: string)
    requires |s| <= 4 && forall i | 0 <= i < |s| :: IsDigit(s[i])
    ensures |Pad(s)| == 4 && forall i | 0 <= i < 4 :: IsDigit(Pad(s)[i])
    ensures ParseNat(Pad(s)) == ParseNat(s)
    decreases 4 - |s|
  {
    if |s| < 4 {
      LeadingZero(s);
      PadKeepsNumber("0" + s);
    }
  }

  lemma CodeRoundTrip(code: nat)
    requires code < 100
    ensures Run(Digit, PrintCode(code)) == 4 && |PrintCode(code)| == 4
    ensures forall i | 0 <= i < 4 :: IsDigit(PrintCode(code)[i])
    ensures ParseNat(PrintCode(code)) == code
  {
    assert |PrintNat(code)| <= 2;
    PadKeepsNumber(PrintNat(code));
    ParseUndoesPrint(code);
    RunIs(Digit, PrintCode(code), 4);
  }

  lemma {:induction false} PrintHasNoNul(fs: seq<Field>)
    requires forall i | 0 <= i < |fs| && fs[i].WordField? :: NUL !in fs[i].word
    ensures NUL !in PrintFields(fs)
  {
    if fs != [] {
      assert NUL !in PrintField(fs[0]);
      PrintHasNoNul(fs[1..]);
    }
  }

  lemma BuildUndoesFields(r: Request)
    ensures Formats(Code(r)).Some? && Match(Formats(Code(r)).value, Fields(r))
    ensures Build(Code(r), Fields(r)) == Some(r)
  {
  }

  lemma FieldsUndoBuild(code: int, fs: seq<Field>)
    requires Formats(code).Some? && Match(Formats(code).value, fs)
    ensures Build(code, fs).Some? && Fields(Build(code, fs).value) == fs
  {
  }

  lemma PrintCodes(code: nat)
    requires code < 100
    ensures PrintCode(code) == "00" + [DigitChar(code / 10), DigitChar(code % 10)]
  {
    var s := PrintNat(code);
    if code < 10 {
      assert Pad(s) == Pad("0" + s) == Pad("0" + ("0" + s)) == Pad("0" + ("0" + ("0" + s)));
      assert "0" + ("0" + ("0" + s)) == "00" + [DigitChar(0), DigitChar(code)];
    } else {
      assert PrintNat(code / 10) == [DigitChar(code / 10)];
      assert Pad(s) == Pad("0" + s) == Pad("0" + ("0" + s));
      assert "0" + ("0" + s) == "00" + [DigitChar(code / 10), DigitChar(code % 10)];
    }
  }

  /** Words with single blanks between them. */
  function Joined(words: seq<string>): string {
    if words == [] then ""
    else if |words| == 1 then words[0]
    else words[0] + " " + Joined(words[1..])
  }

  function Texts(fs: seq<Field>): seq<string> {
    seq(|fs|, i requires 0 <= i < |fs| => PrintField(fs[i]))
  }

  lemma {:induction false} PrintJoins(fs: seq<Field>)
    ensures PrintFields(fs) == Joined(Texts(fs))
  {
    if |fs| > 1 {
      PrintJoins(fs[1..]);
      assert Texts(fs)[1..] == Texts(fs[1..]);
    }
  }

  lemma EncodeJoins(r: Request)
    ensures Encode(r) == Joined([PrintCode(Code(r))] + Texts(Fields(r)))
  {
    PrintJoins(Fields(r));
    var words := [PrintCode(Code(r))] + Texts(Fields(r));
    assert words[1..] == Texts(Fields(r));
  }

  /** An unsigned number printed as `long`: negative from 2 to the 63 on. */
  function Long(u: U64): string {
    if u < 0x8000_0000_0000_0000 then PrintNat(u) else "-" + PrintNat(0x1_0000_0000_0000_0000 - u)
  }

  /** The words of every request, as the format strings of the client have them. */
  function Words(r: Request): seq<string> {
    match r
    case Consent(tid, path, source) => ["0000", PrintInt(tid), path, source]
    case Close(tid, path) => ["0002", PrintInt(tid), path]
    case Create(tid, fd, path) => ["0003", PrintInt(tid), PrintInt(fd), path]
    case ExitGroup(tid) => ["0004", PrintInt(tid)]
    case HandshakeNamed(tid, pid, app) => ["0005", PrintInt(tid), PrintInt(pid), app]
    case HandshakeAnonymous(tid, pid) => ["0006", PrintInt(tid), PrintInt(pid)]
    case Open(tid, fd, path) => ["0008", PrintInt(tid), PrintInt(fd), path]
    case Read(path, tid, fd, end) => ["0009", path, PrintInt(tid), PrintInt(fd), Long(end)]
    case Rename(tid, o, n) => ["0010", PrintInt(tid), o, n]
    case Write(tid, fd, path, size) => ["0011", PrintInt(tid), PrintInt(fd), path, Long(size)]
  }

  /** The text sent is those words. */
  lemma WireFormat(r: Request)
    ensures Encode(r) == Joined(Words(r))
  {
    PrintCodes(Code(r));
    EncodeJoins(r);
    CodeWord(r);
    FieldWords(r);
    assert [PrintCode(Code(r))] + Words(r)[1..] == Words(r);
  }

  lemma CodeWord(r: Request)
    ensures Words(r)[0] == "00" + [DigitChar(Code(r) / 10), DigitChar(Code(r) % 10)]
  {
  }

  lemma FieldWords(r: Request)
    ensures Texts(Fields(r)) == Words(r)[1..]
  {
    assert |Fields(r)| == |Words(r)[1..]|;
    forall i | 0 <= i < |Fields(r)| ensures PrintField(Fields(r)[i]) == Words(r)[1..][i] {}
  }

  /**
   * The server finds exactly what the client named, whatever was left in the
   * buffer behind the terminator, if and only if every name is clean.
   */
  lemma FrameRoundTrip(r: Request, junk: string)
    requires |Encode(r)| < REQ_MAX_SIZE
    requires |Encode(r)| + 1 + |junk| == REQ_MAX_SIZE
    ensures Decode(Encode(r) + [NUL] + junk) == Some(r) <==> NamesClean(r)
  {
    var frame := Encode(r) + [NUL] + junk;
    if NamesClean(r) {
      CleanFrameDecodes(r, junk);
    }
    if Decode(frame) == Some(r) {
      DecodedNamesAreClean(frame);
    }
  }

  lemma DispatchUndoesFields(r: Request)
    requires NamesClean(r)
    ensures Dispatch(Code(r), PrintFields(Fields(r))) == Some(r)
  {
    BuildUndoesFields(r);
    ScanUndoesPrintFields(Formats(Code(r)).value, Fields(r), []);
    assert PrintFields(Fields(r)) == [] + PrintFields(Fields(r));
  }

  lemma CStringStopsAtNul(text: string, junk: string)
    requires NUL !in text
    ensures CString(text + [NUL] + junk) == text
  {
    RunIs(Text, text + [NUL] + junk, |text|);
  }

  lemma CleanFrameDecodes(r: Request, junk: string)
    requires NamesClean(r)
    ensures Decode(Encode(r) + [NUL] + junk) == Some(r)
  {
    var code, tail := PrintCode(Code(r)), PrintFields(Fields(r));
    var text := code + " " + tail;
    CodeRoundTrip(Code(r));
    PrintHasNoNul(Fields(r));
    CStringStopsAtNul(text, junk);
    assert text[..4] == code && text[5..] == tail;
    DispatchUndoesFields(r);
  }

  lemma DispatchedNamesAreClean(code: int, tail: string)
    requires NUL !in tail && Dispatch(code, tail).Some?
    ensures NamesClean(Dispatch(code, tail).value)
  {
    ScannedWordsAreClean(Formats(code).value, tail);
    FieldsUndoBuild(code, ScanFields(Formats(code).value, tail).value);
  }

  lemma TextHasNoNul(frame: string, from: nat)
    requires from <= |CString(frame)|
    ensures NUL !in CString(frame)[from..]
  {
  }

  /** Whatever arrives, a decoded request has clean names. */
  lemma DecodedNamesAreClean(frame: string)
    requires Decode(frame).Some?
    ensures NamesClean(Decode(frame).value)
  {
    var text := CString(frame);
    var k := CodeLength(text);
    TextHasNoNul(frame, k + 1);
    DispatchedNamesAreClean(ParseNat(text[..k]), text[k + 1..]);
  }

  /** Code 7, which the client never prints, is handled as a creation; 1 and all codes above 11 have no handler. */
  lemma CodesHandled(code: int, tail: string)
    ensures Formats(code).Some? <==> 0 <= code <= 11 && code != 1
    ensures Dispatch(7, tail) == Dispatch(3, tail)
    ensures code == 1 || code > 11 ==> Dispatch(code, tail) == None
  {
  }
}
