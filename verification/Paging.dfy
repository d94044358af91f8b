/** The keyset listing of mission templates: its cursor texts, its pages, and what following the cursors yields. */
module Paging {
  import opened Wrappers
  import opened Sorting
  import opened Base64Url

  const MAX_INTEGER := 0x7FFF_FFFF
  const MAX_SAFE_INTEGER := 0x1F_FFFF_FFFF_FFFF

  datatype Code = VisitCreate | VisitShare | EventAttendance | PrivateExperienceFeedback

  type Version = x: int | 1 <= x <= MAX_INTEGER witness 1

  datatype Row = Row(code: Code, version: Version, name: string)

  datatype Cursor = Cursor(code: Code, version: nat)

  datatype Error = InvalidCursor | IntegerOutOfRange | QueryInvalid | DependencyUnavailable

  datatype Page = Page(data: seq<Row>, hasMore: bool, limit: nat, nextCursor: Option<string>)

  function Name(code: Code): string {
    match code
    case VisitCreate => "visit_create"
    case VisitShare => "visit_share"
    case EventAttendance => "event_attendance"
    case PrivateExperienceFeedback => "private_experience_feedback"
  }

  // ----- the cursor text

  function Digit(n: nat): char
    requires n < 10
  {
    '0' + n as char
  }

  function Decimal(n: nat): (s: string)
    ensures s != ""
  {
    if n < 10 then [Digit(n)] else Decimal(n / 10) + [Digit(n % 10)]
  }

  predicate AllDigits(s: string) { forall i :: 0 <= i < |s| ==> '0' <= s[i] <= '9' }

  function DigitsValue(s: string): nat
    requires AllDigits(s)
  {
    if s == "" then 0 else 10 * DigitsValue(s[..|s| - 1]) + (s[|s| - 1] - '0') as nat
  }

  /** A JSON number that is a natural one: digits without a leading zero. */
  function ParseDecimal(s: string): Option<nat> {
    if s == "" || !AllDigits(s) || (s[0] == '0' && |s| > 1) then None else Some(DigitsValue(s))
  }

  const OPENING := "{\"code\":\""
  const MIDDLE := "\",\"v\":1,\"version\":"

  function PayloadText(code: Code, version: nat): string {
    OPENING + Name(code) + MIDDLE + Decimal(version) + "}"
  }

  predicate Ascii(s: string) { forall i :: 0 <= i < |s| ==> s[i] < 128 as char }

  function Utf8(s: string): (bytes: seq<Byte>)
    requires Ascii(s)
    ensures |bytes| == |s| && forall i :: 0 <= i < |s| ==> bytes[i] == s[i] as int
  {
    seq(|s|, i requires 0 <= i < |s| => s[i] as int)
  }

  function TextOf(bytes: seq<Byte>): Option<string> {
    if forall i :: 0 <= i < |bytes| ==> bytes[i] < 128
    then Some(seq(|bytes|, i requires 0 <= i < |bytes| => bytes[i] as char))
    else None
  }

  lemma LiteralsAreAscii()
    ensures Ascii(OPENING) && Ascii(MIDDLE) && Ascii("}")
  {
  }

  lemma NamesAreAscii(code: Code)
    ensures Ascii(Name(code))
  {
  }

  lemma AsciiAppends(a: string, b: string)
    requires Ascii(a) && Ascii(b)
    ensures Ascii(a + b)
  {
  }

  lemma PayloadIsAscii(code: Code, version: nat)
    ensures Ascii(PayloadText(code, version))
  {
    DecimalReadsBack(version);
    assert Ascii(Decimal(version));
    hide Name, Decimal, Ascii;
    LiteralsAreAscii();
    NamesAreAscii(code);
    AsciiAppends(OPENING, Name(code));
    AsciiAppends(OPENING + Name(code), MIDDLE);
    AsciiAppends(OPENING + Name(code) + MIDDLE, Decimal(version));
    AsciiAppends(OPENING + Name(code) + MIDDLE + Decimal(version), "}");
  }

  /** The bytes that the encoder writes for a code and a version. */
  function Payload(code: Code, version: nat): seq<Byte> {
    PayloadIsAscii(code, version);
    Utf8(PayloadText(code, version))
  }

  function CursorText(code: Code, version: nat): string {
    Encode(Payload(code, version))
  }

  function EncodeCursor(row: Row): string { CursorText(row.code, row.version) }

  function CodeNamed(name: string): Option<Code> {
    if name == Name(VisitCreate) then Some(VisitCreate)
    else if name == Name(VisitShare) then Some(VisitShare)
    else if name == Name(EventAttendance) then Some(EventAttendance)
    else if name == Name(PrivateExperienceFeedback) then Some(PrivateExperienceFeedback)
    else None
  }

  /** What the schema looks at in a JSON value: the string under "code" and the integers under "v" and "version"; a part
      is missing when the key is, or when its value is of another kind. */
  datatype Fields = Fields(code: Option<string>, v: Option<int>, version: Option<int>)

  /** How the runtime reads a cursor: which characters it takes for letters, and what it makes of the bytes as JSON. */
  datatype Reader = Reader(sextet: char -> Option<nat>, json: seq<Byte> -> Option<Fields>)

  predicate InRange(version: int) { 0 < version <= MAX_SAFE_INTEGER }

  /** All that is asked of the runtime: its base64url reader is the lenient one, and its JSON reader reads back what its
      JSON writer wrote, and does not read such a text cut short. */
  ghost predicate Faithful(reader: Reader) {
    && TakesEitherAlphabet(reader.sextet)
    && (forall code, version: nat :: InRange(version) ==>
          reader.json(Payload(code, version)) == Some(Fields(Some(Name(code)), Some(1), Some(version))))
    && (forall code, version: nat, k: nat :: InRange(version) && k < |Payload(code, version)| ==>
          reader.json(Payload(code, version)[..k]) == None)
  }

  /** The payload schema: a known code, the literal version tag, and a positive safe integer. */
  function ParseFields(fields: Fields): Option<Cursor> {
    if fields.code.None? || CodeNamed(fields.code.value).None? || fields.v != Some(1) then None
    else if fields.version.None? || !InRange(fields.version.value) then None
    else Some(Cursor(CodeNamed(fields.code.value).value, fields.version.value))
  }

  function DecodeCursor(reader: Reader, value: Option<string>): Result<Option<Cursor>, Error> {
    if value.None? || value.value == "" then Success(None)
    else
      var fields := reader.json(DecodeLeniently(value.value, reader.sextet));
      var cursor := if fields.None? then None else ParseFields(fields.value);
      if cursor.None? then Failure(InvalidCursor) else Success(cursor)
  }

  lemma {:induction false} DecimalReadsBack(n: nat)
    ensures AllDigits(Decimal(n)) && DigitsValue(Decimal(n)) == n
    ensures n > 0 ==> Decimal(n)[0] != '0'
  {
    if n >= 10 {
      DecimalReadsBack(n / 10);
      assert Decimal(n)[..|Decimal(n)| - 1] == Decimal(n / 10);
    } else {
      assert DigitsValue("") == 0;
      assert Decimal(n)[..0] == "";
    }
  }

  lemma NamesAreClear(code: Code)
    ensures '"' !in Name(code) && CodeNamed(Name(code)) == Some(code)
  {
  }

  /** Every cursor the listing hands out leads back to the row it was made from. */
  lemma DecodeUndoesEncodeCursor(reader: Reader, code: Code, version: nat)
    requires Faithful(reader) && InRange(version)
    ensures CursorText(code, version) != ""
    ensures DecodeCursor(reader, Some(CursorText(code, version))) == Success(Some(Cursor(code, version)))
  {
    NamesAreClear(code);
    assert |Payload(code, version)| > 0;
    assert reader.json(Payload(code, version)) == Some(Fields(Some(Name(code)), Some(1), Some(version)));
    hide Payload, Name, CodeNamed, Encode, DecodeLeniently, TakesEitherAlphabet;
    EncodedLength(Payload(code, version));
    LenientReaderUndoesEncode(Payload(code, version), reader.sextet);
  }

  // ----- a reader that is faithful

  function UpToQuote(s: string): (name: string)
    ensures name <= s
  {
    if s == "" || s[0] == '"' then "" else [s[0]] + UpToQuote(s[1..])
  }

  /** Reads nothing but the encoder's own text. */
  function StrictFields(text: string): Option<Fields> {
    if !(OPENING <= text) then None
    else
      var name := UpToQuote(text[|OPENING|..]);
      var rest := text[|OPENING| + |name|..];
      if !(MIDDLE <= rest) || rest[|rest| - 1] != '}' || |rest| == |MIDDLE| then None
      else
        var version := ParseDecimal(rest[|MIDDLE|..|rest| - 1]);
        if version.None? then None else Some(Fields(Some(name), Some(1), Some(version.value)))
  }

  function StrictJson(bytes: seq<Byte>): Option<Fields> {
    var text := TextOf(bytes);
    if text.None? then None else StrictFields(text.value)
  }

  lemma {:induction false} QuoteEndsName(name: string, rest: string)
    requires '"' !in name && rest != "" && rest[0] == '"'
    ensures UpToQuote(name + rest) == name
  {
    if name == "" {
      assert name + rest == rest;
    } else {
      QuoteEndsName(name[1..], rest);
      assert (name + rest)[1..] == name[1..] + rest;
    }
  }

  lemma TailReadsBack(digits: string)
    requires digits != ""
    ensures var tail := MIDDLE + digits + "}";
            && tail[0] == '"' && MIDDLE <= tail && tail[|tail| - 1] == '}' && |tail| > |MIDDLE|
            && tail[|MIDDLE|..|tail| - 1] == digits
  {
  }

  lemma HeadReadsBack(name: string, tail: string)
    requires '"' !in name && tail != "" && tail[0] == '"'
    ensures var text := OPENING + name + tail;
            && OPENING <= text && UpToQuote(text[|OPENING|..]) == name && text[|OPENING| + |name|..] == tail
  {
    QuoteEndsName(name, tail);
    assert (OPENING + name + tail)[|OPENING|..] == name + tail;
  }

  lemma FieldsReadBack(name: string, digits: string)
    requires '"' !in name && ParseDecimal(digits).Some?
    ensures StrictFields(OPENING + name + (MIDDLE + digits + "}")) == Some(Fields(Some(name), Some(1), Some(ParseDecimal(digits).value)))
  {
    assert digits != "";
    hide ParseDecimal, UpToQuote;
    TailReadsBack(digits);
    HeadReadsBack(name, MIDDLE + digits + "}");
  }

  lemma LastThreeTogether(head: string, a: string, b: string, c: string)
    ensures head + a + b + c == head + (a + b + c)
  {
  }

  lemma PayloadReadsBack(code: Code, version: nat)
    requires InRange(version)
    ensures StrictFields(PayloadText(code, version)) == Some(Fields(Some(Name(code)), Some(1), Some(version)))
  {
    DecimalReadsBack(version);
    assert ParseDecimal(Decimal(version)) == Some(version);
    hide Name, Decimal, ParseDecimal, StrictFields;
    NamesAreClear(code);
    FieldsReadBack(Name(code), Decimal(version));
    LastThreeTogether(OPENING + Name(code), MIDDLE, Decimal(version), "}");
  }

  lemma TextReadsBack(text: string)
    requires Ascii(text)
    ensures TextOf(Utf8(text)) == Some(text)
  {
    assert TextOf(Utf8(text)).value == text;
  }

  lemma BraceEndsPayload(code: Code, version: nat, i: nat)
    requires i < |PayloadText(code, version)| - 1
    ensures PayloadText(code, version)[i] != '}'
  {
    DecimalReadsBack(version);
    assert '}' !in Name(code) && '}' !in OPENING && '}' !in MIDDLE && '}' !in Decimal(version);
    hide Name, Decimal;
  }

  lemma CutTextHasNoFields(code: Code, version: nat, k: nat)
    requires k < |PayloadText(code, version)|
    ensures StrictFields(PayloadText(code, version)[..k]) == None
  {
    hide PayloadText, UpToQuote, ParseDecimal;
    var text := PayloadText(code, version)[..k];
    if k > 0 {
      BraceEndsPayload(code, version, k - 1);
      assert text[|text| - 1] != '}';
    }
    if OPENING <= text {
      var rest := text[|OPENING| + |UpToQuote(text[|OPENING|..])|..];
      assert rest != [] ==> rest[|rest| - 1] == text[|text| - 1];
    }
  }

  lemma CutPayloadIsNoJson(code: Code, version: nat, k: nat)
    requires k < |Payload(code, version)|
    ensures StrictJson(Payload(code, version)[..k]) == None
  {
    PayloadIsAscii(code, version);
    hide PayloadText, StrictFields;
    var text := PayloadText(code, version);
    assert TextOf(Utf8(text)[..k]).value == text[..k];
    CutTextHasNoFields(code, version, k);
  }

  /** What is asked of the runtime can be had. */
  lemma FaithfulReaderExists()
    ensures Faithful(Reader(LenientValue, StrictJson))
  {
    forall code, version: nat | InRange(version)
      ensures StrictJson(Payload(code, version)) == Some(Fields(Some(Name(code)), Some(1), Some(version)))
    {
      PayloadIsAscii(code, version);
      hide PayloadText, StrictFields, TextOf, Utf8, Ascii, Name;
      TextReadsBack(PayloadText(code, version));
      PayloadReadsBack(code, version);
    }
    forall code, version: nat, k: nat | InRange(version) && k < |Payload(code, version)|
      ensures StrictJson(Payload(code, version)[..k]) == None
    {
      CutPayloadIsNoJson(code, version, k);
    }
    hide StrictJson, LenientValue, Payload, Name;
  }

  // ----- the order and the query

  /** Text order, character by character. */
  predicate TextBefore(a: string, b: string) {
    b != "" && (a == "" || a[0] < b[0] || (a[0] == b[0] && TextBefore(a[1..], b[1..])))
  }

  function Rank(code: Code): nat {
    match code
    case EventAttendance => 0
    case PrivateExperienceFeedback => 1
    case VisitCreate => 2
    case VisitShare => 3
  }

  lemma {:induction false} CommonStart(start: string, a: string, b: string)
    ensures TextBefore(start + a, start + b) <==> TextBefore(a, b)
  {
    if start == "" {
      assert start + a == a && start + b == b;
    } else {
      CommonStart(start[1..], a, b);
      assert (start + a)[1..] == start[1..] + a && (start + b)[1..] == start[1..] + b;
    }
  }

  lemma RankFollowsNames(a: Code, b: Code)
    ensures TextBefore(Name(a), Name(b)) <==> Rank(a) < Rank(b)
  {
    if a == b {
      CommonStart(Name(a), "", "");
      assert Name(a) + "" == Name(a);
    } else {
      CommonStart("visit_", "create", "share");
      CommonStart("visit_", "share", "create");
      assert "visit_" + "create" == Name(VisitCreate) && "visit_" + "share" == Name(VisitShare);
    }
  }

  /** The WHERE clause: rows whose code and version come after the cursor. */
  predicate After(cursor: Option<Cursor>, row: Row) {
    cursor.None?
    || TextBefore(Name(cursor.value.code), Name(row.code))
    || (row.code == cursor.value.code && row.version > cursor.value.version)
  }

  /** The ORDER BY clause. */
  predicate InOrder(x: Row, y: Row) {
    Rank(x.code) < Rank(y.code) || (x.code == y.code && x.version <= y.version)
  }

  function Filter<T>(xs: seq<T>, keep: T -> bool): seq<T> {
    if xs == [] then []
    else if keep(xs[0]) then [xs[0]] + Filter(xs[1..], keep)
    else Filter(xs[1..], keep)
  }

  function Following(cursor: Option<Cursor>): Row -> bool { (row: Row) => After(cursor, row) }

  function Hits(table: seq<Row>, cursor: Option<Cursor>): seq<Row> {
    Sort(Filter(table, Following(cursor)), InOrder)
  }

  function Take<T>(xs: seq<T>, n: nat): seq<T> {
    if n <= |xs| then xs[..n] else xs
  }

  function ListMissionTemplates(reader: Reader, table: seq<Row>, limit: nat, cursorValue: Option<string>): Result<Page, Error> {
    var cursor := DecodeCursor(reader, cursorValue);
    if cursor.Failure? then Failure(cursor.error)
    else if cursor.value.Some? && cursor.value.value.version > MAX_INTEGER then Failure(IntegerOutOfRange)
    else
      var rows := Take(Hits(table, cursor.value), limit + 1);
      var hasMore := |rows| > limit;
      var data := Take(rows, limit);
      Success(Page(data, hasMore, limit, if hasMore && data != [] then Some(EncodeCursor(data[|data| - 1])) else None))
  }

  // ----- following the cursors

  function Key(row: Row): (Code, Version) { (row.code, row.version) }

  function CursorOf(row: Row): Option<Cursor> { Some(Cursor(row.code, row.version)) }

  lemma OrderIsTotal()
    ensures TotalPreorder(InOrder)
  {
  }

  lemma AfterFollowsOrder(x: Row, y: Row)
    ensures After(CursorOf(x), y) <==> InOrder(x, y) && Key(x) != Key(y)
  {
    RankFollowsNames(x.code, y.code);
  }

  lemma AfterIsTransitive(cursor: Option<Cursor>, x: Row, y: Row)
    requires After(cursor, x) && InOrder(x, y)
    ensures After(cursor, y)
  {
    if cursor.Some? {
      RankFollowsNames(cursor.value.code, x.code);
      RankFollowsNames(cursor.value.code, y.code);
    }
  }

  lemma {:induction false} FilterCounts<T>(xs: seq<T>, keep: T -> bool, x: T)
    ensures multiset(Filter(xs, keep))[x] == if keep(x) then multiset(xs)[x] else 0
  {
    if xs != [] {
      FilterCounts(xs[1..], keep, x);
      assert xs == [xs[0]] + xs[1..];
    }
  }

  lemma FilterIgnoresOrder<T(!new)>(xs: seq<T>, ys: seq<T>, keep: T -> bool)
    requires multiset(xs) == multiset(ys)
    ensures multiset(Filter(xs, keep)) == multiset(Filter(ys, keep))
  {
    forall x ensures multiset(Filter(xs, keep))[x] == multiset(Filter(ys, keep))[x] {
      FilterCounts(xs, keep, x);
      FilterCounts(ys, keep, x);
    }
  }

  lemma {:induction false} FilterOfSplit<T>(xs: seq<T>, keep: T -> bool, k: nat)
    requires k <= |xs|
    requires forall i :: 0 <= i < |xs| ==> (keep(xs[i]) <==> i >= k)
    ensures Filter(xs, keep) == xs[k..]
  {
    if xs != [] {
      FilterOfSplit(xs[1..], keep, if k == 0 then 0 else k - 1);
    }
  }

  lemma {:induction false} FilterTwice<T>(xs: seq<T>, first: T -> bool, both: T -> bool)
    requires forall x <- xs :: both(x) ==> first(x)
    ensures Filter(Filter(xs, first), both) == Filter(xs, both)
  {
    if xs != [] {
      FilterTwice(xs[1..], first, both);
      assert first(xs[0]) ==> Filter(xs, first)[1..] == Filter(xs[1..], first);
    }
  }

  lemma {:induction false} FilterKeepsDistinct<T(!new), K>(xs: seq<T>, keep: T -> bool, key: T -> K)
    requires DistinctBy(xs, key)
    ensures DistinctBy(Filter(xs, keep), key)
    ensures forall x <- Filter(xs, keep) :: x in xs && keep(x)
  {
    if xs != [] {
      FilterKeepsDistinct(xs[1..], keep, key);
      var rest := Filter(xs[1..], keep);
      forall y | y in rest ensures y in xs && keep(y) && key(y) != key(xs[0]) {
        var i :| 0 <= i < |xs[1..]| && xs[1..][i] == y;
        assert xs[i + 1] == y;
      }
      ConsKeepsDistinct(xs[0], rest, key);
    }
  }

  /** What a query returns: in strictly rising order of code and version, and only rows after the cursor. */
  lemma HitsAreInOrder(table: seq<Row>, cursor: Option<Cursor>)
    requires DistinctBy(table, Key)
    ensures SortedBy(Hits(table, cursor), InOrder) && DistinctBy(Hits(table, cursor), Key)
    ensures forall row <- Hits(table, cursor) :: After(cursor, row)
  {
    OrderIsTotal();
    FilterKeepsDistinct(table, Following(cursor), Key);
    var kept := Filter(table, Following(cursor));
    SortSorts(kept, InOrder);
    SortKeepsDistinct(kept, InOrder, Key);
    SortKeepsElements(kept, InOrder);
  }

  lemma OrderIsStrictOnKeys(x: Row, y: Row)
    ensures InOrder(x, y) && InOrder(y, x) ==> Key(x) == Key(y)
  {
  }

  lemma LaterHits(hits: seq<Row>, j: nat)
    requires j < |hits| && SortedBy(hits, InOrder) && DistinctBy(hits, Key)
    ensures Filter(hits, Following(CursorOf(hits[j]))) == hits[j + 1..]
  {
    var next := CursorOf(hits[j]);
    forall i | 0 <= i < |hits| ensures Following(next)(hits[i]) <==> i >= j + 1 {
      AfterFollowsOrder(hits[j], hits[i]);
      OrderIsStrictOnKeys(hits[i], hits[j]);
      assert Following(next)(hits[i]) == After(next, hits[i]);
      hide After, InOrder, Key, Following;
    }
    hide *;
    FilterOfSplit(hits, Following(next), j + 1);
  }

  lemma FilterOfHits(table: seq<Row>, cursor: Option<Cursor>, x: Row)
    requires After(cursor, x)
    ensures multiset(Filter(table, Following(CursorOf(x)))) == multiset(Filter(Hits(table, cursor), Following(CursorOf(x))))
  {
    var next := CursorOf(x);
    var kept := Filter(table, Following(cursor));
    forall row | row in table && After(next, row) ensures After(cursor, row) {
      AfterFollowsOrder(x, row);
      AfterIsTransitive(cursor, x, row);
    }
    hide After;
    FilterTwice(table, Following(cursor), Following(next));
    SortPermutes(kept, InOrder);
    FilterIgnoresOrder(Hits(table, cursor), kept, Following(next));
  }

  lemma NextQueryHasTheLaterRows(table: seq<Row>, cursor: Option<Cursor>, j: nat)
    requires DistinctBy(table, Key) && j < |Hits(table, cursor)|
    ensures var hits := Hits(table, cursor); multiset(Hits(table, CursorOf(hits[j]))) == multiset(hits[j + 1..])
  {
    var hits := Hits(table, cursor);
    var next := CursorOf(hits[j]);
    SortPermutes(Filter(table, Following(next)), InOrder);
    hide After, InOrder, Key, Filter, Sort, Following;
    HitsAreInOrder(table, cursor);
    LaterHits(hits, j);
    FilterOfHits(table, cursor, hits[j]);
  }

  /** The query after a row of an earlier answer returns exactly what came after that row. */
  lemma NextQueryContinues(table: seq<Row>, cursor: Option<Cursor>, j: nat)
    requires DistinctBy(table, Key) && j < |Hits(table, cursor)|
    ensures Hits(table, CursorOf(Hits(table, cursor)[j])) == Hits(table, cursor)[j + 1..]
  {
    hide After, Filter, Sort, Following, Hits, TotalPreorder;
    var hits := Hits(table, cursor);
    var next := CursorOf(hits[j]);
    OrderIsTotal();
    forall x, y | InOrder(x, y) && InOrder(y, x) ensures Key(x) == Key(y) {
      OrderIsStrictOnKeys(x, y);
    }
    hide InOrder, Key;
    HitsAreInOrder(table, cursor);
    HitsAreInOrder(table, next);
    NextQueryHasTheLaterRows(table, cursor, j);
    SortedArrangementIsUnique(hits[j + 1..], Hits(table, next), InOrder);
  }

  function HitsOf(reader: Reader, table: seq<Row>, cursorValue: Option<string>): seq<Row> {
    var cursor := DecodeCursor(reader, cursorValue);
    if cursor.Failure? then [] else Hits(table, cursor.value)
  }

  lemma NextPageStarts(reader: Reader, table: seq<Row>, limit: nat, cursorValue: Option<string>)
    requires Faithful(reader) && limit >= 1 && DistinctBy(table, Key)
    ensures var page := ListMissionTemplates(reader, table, limit, cursorValue);
            var hits := HitsOf(reader, table, cursorValue);
            page.Success? ==>
              && page.value.data == Take(hits, limit)
              && page.value.hasMore == (|hits| > limit)
              && (page.value.nextCursor.Some? <==> page.value.hasMore)
              && (page.value.hasMore ==>
                    && HitsOf(reader, table, page.value.nextCursor) == hits[limit..]
                    && ListMissionTemplates(reader, table, limit, page.value.nextCursor).Success?)
  {
    hide Faithful, CursorText, Hits, DecodeCursor, DistinctBy;
    var page := ListMissionTemplates(reader, table, limit, cursorValue);
    var hits := HitsOf(reader, table, cursorValue);
    if page.Success? && |hits| > limit {
      var cursor := DecodeCursor(reader, cursorValue).value;
      assert Take(Take(hits, limit + 1), limit) == hits[..limit];
      NextQueryContinues(table, cursor, limit - 1);
      DecodeUndoesEncodeCursor(reader, hits[limit - 1].code, hits[limit - 1].version);
    }
  }

  /** The answers a client collects by asking for pages until one says that there are no more. */
  function Walk(reader: Reader, table: seq<Row>, limit: nat, cursorValue: Option<string>): (pages: Result<seq<Page>, Error>)
    requires Faithful(reader) && limit >= 1 && DistinctBy(table, Key)
    decreases |HitsOf(reader, table, cursorValue)|
  {
    var page := ListMissionTemplates(reader, table, limit, cursorValue);
    if page.Failure? then Failure(page.error)
    else if !page.value.hasMore then Success([page.value])
    else
      NextPageStarts(reader, table, limit, cursorValue);
      var rest := Walk(reader, table, limit, page.value.nextCursor);
      if rest.Failure? then rest else Success([page.value] + rest.value)
  }

  function Rows(pages: seq<Page>): seq<Row> {
    if pages == [] then [] else pages[0].data + Rows(pages[1..])
  }

  predicate FullUntilLast(pages: seq<Page>, limit: nat) {
    && pages != []
    && (forall i :: 0 <= i < |pages| - 1 ==> |pages[i].data| == limit && pages[i].hasMore)
    && !pages[|pages| - 1].hasMore && pages[|pages| - 1].nextCursor.None?
    && |pages[|pages| - 1].data| <= limit
    && (|pages| > 1 ==> pages[|pages| - 1].data != [])
  }

  lemma PageBeforeOthers(page: Page, rest: seq<Page>, limit: nat)
    requires FullUntilLast(rest, limit) && Rows(rest) != [] && page.hasMore && |page.data| == limit
    ensures FullUntilLast([page] + rest, limit) && Rows([page] + rest) == page.data + Rows(rest)
  {
    assert |rest| == 1 ==> Rows(rest[1..]) == [];
    assert ([page] + rest)[1..] == rest;
  }

  lemma OnlyPage(page: Page, limit: nat)
    requires !page.hasMore && page.nextCursor.None? && |page.data| <= limit
    ensures FullUntilLast([page], limit) && Rows([page]) == page.data
  {
    assert [page][1..] == [];
  }

  lemma WalkSteps(reader: Reader, table: seq<Row>, limit: nat, cursorValue: Option<string>)
    requires Faithful(reader) && limit >= 1 && DistinctBy(table, Key)
    requires ListMissionTemplates(reader, table, limit, cursorValue).Success?
    ensures var page, walk := ListMissionTemplates(reader, table, limit, cursorValue).value, Walk(reader, table, limit, cursorValue);
            if page.hasMore
            then var rest := Walk(reader, table, limit, page.nextCursor); rest.Success? ==> walk == Success([page] + rest.value)
            else walk == Success([page])
  {
    hide ListMissionTemplates, DistinctBy;
  }

  lemma {:induction false} WalkCollects(reader: Reader, table: seq<Row>, limit: nat, cursorValue: Option<string>)
    requires Faithful(reader) && limit >= 1 && DistinctBy(table, Key)
    requires ListMissionTemplates(reader, table, limit, cursorValue).Success?
    ensures var pages := Walk(reader, table, limit, cursorValue);
            pages.Success? && Rows(pages.value) == HitsOf(reader, table, cursorValue) && FullUntilLast(pages.value, limit)
    decreases |HitsOf(reader, table, cursorValue)|
  {
    hide ListMissionTemplates, HitsOf, FullUntilLast, Rows, DistinctBy, Walk;
    NextPageStarts(reader, table, limit, cursorValue);
    WalkSteps(reader, table, limit, cursorValue);
    var page := ListMissionTemplates(reader, table, limit, cursorValue).value;
    var hits := HitsOf(reader, table, cursorValue);
    assert !page.hasMore ==> page.data == hits;
    if page.hasMore {
      WalkCollects(reader, table, limit, page.nextCursor);
      PageBeforeOthers(page, Walk(reader, table, limit, page.nextCursor).value, limit);
      assert hits[..limit] + hits[limit..] == hits;
    } else {
      OnlyPage(page, limit);
    }
  }

  lemma {:induction false} FullPagesHoldRows(pages: seq<Page>, limit: nat)
    requires FullUntilLast(pages, limit)
    ensures |Rows(pages)| == (|pages| - 1) * limit + |pages[|pages| - 1].data|
  {
    if |pages| == 1 {
      assert Rows(pages[1..]) == [];
    } else {
      FullPagesHoldRows(pages[1..], limit);
      assert (|pages| - 1) * limit == limit + (|pages| - 2) * limit;
    }
  }

  /** Following the cursors from the start yields the whole table in order, with no gap and no duplicate;
      only the last page may be short, so the number of pages is settled too. */
  lemma PagesMakeTheTable(reader: Reader, table: seq<Row>, limit: nat)
    requires Faithful(reader) && limit >= 1 && DistinctBy(table, Key)
    ensures var pages := Walk(reader, table, limit, None);
            && pages.Success?
            && multiset(Rows(pages.value)) == multiset(table)
            && SortedBy(Rows(pages.value), InOrder) && DistinctBy(Rows(pages.value), Key)
            && FullUntilLast(pages.value, limit)
            && |table| == (|pages.value| - 1) * limit + |pages.value[|pages.value| - 1].data|
  {
    WalkCollects(reader, table, limit, None);
    HitsAreInOrder(table, None);
    assert forall i :: 0 <= i < |table| ==> Following(None)(table[i]);
    FilterOfSplit(table, Following(None), 0);
    SortPermutes(table, InOrder);
    FullPagesHoldRows(Walk(reader, table, limit, None).value, limit);
  }

  // ----- which cursor texts are accepted

  /** The text is answered as the cursor of a code and a version is, whatever the table and the limit. */
  ghost predicate AnsweredLike(reader: Reader, value: string, code: Code, version: nat) {
    forall table, limit ::
      ListMissionTemplates(reader, table, limit, Some(value)) == ListMissionTemplates(reader, table, limit, Some(CursorText(code, version)))
  }

  /** The cursor of a code and a version is answered, unless the version does not fit the query's integer. */
  lemma CursorIsAnswered(reader: Reader, code: Code, version: nat, table: seq<Row>, limit: nat)
    requires Faithful(reader) && InRange(version)
    ensures var page := ListMissionTemplates(reader, table, limit, Some(CursorText(code, version)));
            if version <= MAX_INTEGER then page.Success? else page == Failure(IntegerOutOfRange)
  {
    hide Faithful, CursorText, Hits;
    DecodeUndoesEncodeCursor(reader, code, version);
  }

  lemma ReadableTextIsACursor(reader: Reader, value: string)
    requires Faithful(reader) && value != "" && DecodeCursor(reader, Some(value)).Success?
    ensures exists code, version: nat :: InRange(version) && AnsweredLike(reader, value, code, version)
  {
    var cursor := DecodeCursor(reader, Some(value)).value.value;
    assert InRange(cursor.version);
    hide Faithful, CursorText, Hits;
    DecodeUndoesEncodeCursor(reader, cursor.code, cursor.version);
    assert AnsweredLike(reader, value, cursor.code, cursor.version);
  }

  /** A text is refused, whatever the table and the limit, or else it is answered exactly like the cursor of some code and
      version, however differently it is written. */
  lemma TextIsRefusedOrACursor(reader: Reader, value: string)
    requires Faithful(reader) && value != ""
    ensures (forall table, limit :: ListMissionTemplates(reader, table, limit, Some(value)) == Failure(InvalidCursor))
            <==> !exists code, version: nat :: InRange(version) && AnsweredLike(reader, value, code, version)
  {
    var refused := DecodeCursor(reader, Some(value)).Failure?;
    assert refused <==> ListMissionTemplates(reader, [], 1, Some(value)) == Failure(InvalidCursor);
    assert refused ==> forall table, limit :: ListMissionTemplates(reader, table, limit, Some(value)) == Failure(InvalidCursor);
    hide Faithful, CursorText, DecodeCursor, ListMissionTemplates;
    if !refused {
      ReadableTextIsACursor(reader, value);
    } else {
      forall code, version: nat | InRange(version) ensures !AnsweredLike(reader, value, code, version) {
        CursorIsAnswered(reader, code, version, [], 1);
      }
    }
  }

  lemma SameLettersSameAnswer(reader: Reader, a: string, b: string, table: seq<Row>, limit: nat)
    requires a != "" && b != "" && Letters(a, reader.sextet) == Letters(b, reader.sextet)
    ensures ListMissionTemplates(reader, table, limit, Some(a)) == ListMissionTemplates(reader, table, limit, Some(b))
  {
    hide Letters, Hits, CursorText, WholeBytes, ParseFields;
    assert DecodeCursor(reader, Some(a)) == DecodeCursor(reader, Some(b));
    hide DecodeCursor;
  }

  /** Characters that the reader passes over can be put anywhere in a cursor, as long as none of them is an equals sign. */
  lemma SpellingDoesNotMatter(reader: Reader, before: string, others: string, after: string, table: seq<Row>, limit: nat)
    requires before + after != "" && forall c <- others :: c != '=' && reader.sextet(c).None?
    ensures ListMissionTemplates(reader, table, limit, Some(before + others + after))
            == ListMissionTemplates(reader, table, limit, Some(before + after))
  {
    hide ListMissionTemplates, Letters;
    assert |before + others + after| >= |before + after| > 0;
    OtherCharactersDoNotMatter(before, others, after, reader.sextet);
    SameLettersSameAnswer(reader, before + others + after, before + after, table, limit);
  }

  lemma CutCursorDoesNotDecode(reader: Reader, code: Code, version: nat, k: nat, value: string)
    requires Faithful(reader) && InRange(version) && k < |CursorText(code, version)| && value != ""
    requires Letters(value, reader.sextet) == Letters(CursorText(code, version)[..k], reader.sextet)
    ensures DecodeCursor(reader, Some(value)) == Failure(InvalidCursor)
  {
    var payload := Payload(code, version);
    var read := DecodeLeniently(CursorText(code, version)[..k], reader.sextet);
    assert DecodeLeniently(value, reader.sextet) == read;
    hide Payload, Letters, WholeBytes, Encode, TakesEitherAlphabet;
    CutTextLosesBytes(payload, k, reader.sextet);
    assert reader.json(payload[..|read|]) == None;
  }

  /** A cursor cut short is refused, wherever it is cut. */
  lemma CutCursorIsRefused(reader: Reader, code: Code, version: nat, k: nat, table: seq<Row>, limit: nat)
    requires Faithful(reader) && InRange(version) && 0 < k < |CursorText(code, version)|
    ensures ListMissionTemplates(reader, table, limit, Some(CursorText(code, version)[..k])) == Failure(InvalidCursor)
  {
    CutCursorDoesNotDecode(reader, code, version, k, CursorText(code, version)[..k]);
    hide DecodeCursor, CursorText;
  }

  /** An equals sign may only follow a whole cursor, with anything behind it: there the answer is the cursor's own, and
      anywhere earlier the text is refused. */
  lemma PaddedCursorIsAnsweredExactlyWhenWhole(reader: Reader, code: Code, version: nat, k: nat, after: string, table: seq<Row>, limit: nat)
    requires Faithful(reader) && InRange(version) && k <= |CursorText(code, version)|
    ensures var text := CursorText(code, version);
            ListMissionTemplates(reader, table, limit, Some(text[..k] + "=" + after))
            == if k == |text| then ListMissionTemplates(reader, table, limit, Some(text)) else Failure(InvalidCursor)
  {
    var text := CursorText(code, version);
    var padded := text[..k] + "=" + after;
    assert padded != "" && text[..|text|] == text;
    NothingIsReadAfterPadding(text[..k], after, reader.sextet);
    DecodeUndoesEncodeCursor(reader, code, version);
    if k < |text| {
      CutCursorDoesNotDecode(reader, code, version, k, padded);
      hide DecodeCursor, CursorText;
    } else {
      hide Faithful, CursorText, ListMissionTemplates, DecodeCursor;
      SameLettersSameAnswer(reader, padded, text, table, limit);
    }
  }

  /** A cursor that the listing has handed out is answered for ever: no change of the table or of the limit makes it
      invalid. */
  lemma HandedOutCursorIsNeverRefused(reader: Reader, table: seq<Row>, limit: nat, cursorValue: Option<string>, later: seq<Row>, other: nat)
    requires Faithful(reader)
    requires var page := ListMissionTemplates(reader, table, limit, cursorValue); page.Success? && page.value.nextCursor.Some?
    ensures var next := ListMissionTemplates(reader, table, limit, cursorValue).value.nextCursor;
            ListMissionTemplates(reader, later, other, next).Success?
  {
    var last := ListMissionTemplates(reader, table, limit, cursorValue).value.data;
    CursorIsAnswered(reader, last[|last| - 1].code, last[|last| - 1].version, later, other);
  }

  // ----- the endpoint in front of the listing

  /** The query as it arrives: a limit that is no integer counts as one out of range. */
  datatype Query = Query(cursor: Option<string>, limit: Option<int>)

  const DEFAULT_LIMIT := 20
  const MAX_LIMIT := 100

  function PageLimit(query: Query): int { if query.limit.Some? then query.limit.value else DEFAULT_LIMIT }

  predicate ApiCursor(s: string) {
    8 <= |s| <= 512 && forall i :: 0 <= i < |s| ==> Unreserved(s[i])
  }

  predicate ValidQuery(query: Query) {
    (query.cursor.Some? ==> ApiCursor(query.cursor.value)) && 1 <= PageLimit(query) <= MAX_LIMIT
  }

  /** An error that is no API problem of its own is reported as an unavailable dependency. */
  function GetMissionTemplates(reader: Reader, table: seq<Row>, query: Query): Result<Page, Error> {
    if !ValidQuery(query) then Failure(QueryInvalid)
    else
      var page := ListMissionTemplates(reader, table, PageLimit(query), query.cursor);
      if page.Failure? && page.error == IntegerOutOfRange then Failure(DependencyUnavailable) else page
  }

  function Pow10(k: nat): nat { if k == 0 then 1 else 10 * Pow10(k - 1) }

  lemma {:induction false} DecimalLength(n: nat, k: nat)
    requires k > 0 && n < Pow10(k)
    ensures |Decimal(n)| <= k
  {
    if n >= 10 {
      assert k > 1;
      DecimalLength(n / 10, k - 1);
    }
  }

  lemma SafeIntegersAreShort(version: nat)
    requires InRange(version)
    ensures |Decimal(version)| <= 16
  {
    assert Pow10(4) == 10000;
    assert Pow10(8) == 10000 * 10000;
    assert Pow10(12) == 10000 * 10000 * 10000;
    assert Pow10(16) == 10000 * 10000 * 10000 * 10000;
    DecimalLength(version, 16);
  }

  /** The text of a cursor has the form that the endpoint asks of one. */
  lemma CursorPassesTheSchema(code: Code, version: nat)
    requires InRange(version)
    ensures ApiCursor(CursorText(code, version))
  {
    SafeIntegersAreShort(version);
    assert |OPENING| == 9 && |MIDDLE| == 18 && 11 <= |Name(code)| <= 27;
    assert 40 <= |Payload(code, version)| <= 71;
    hide Payload, Encode, Unreserved;
    EncodedLength(Payload(code, version));
    EncodedLetters(Payload(code, version));
  }

  /** The endpoint answers every cursor that a listing has handed out, for whatever table and admissible limit. */
  lemma EndpointAnswersItsCursors(reader: Reader, table: seq<Row>, query: Query, later: seq<Row>, limit: Option<int>)
    requires Faithful(reader) && ValidQuery(Query(None, limit))
    requires var page := GetMissionTemplates(reader, table, query); page.Success? && page.value.nextCursor.Some?
    ensures var next := Query(GetMissionTemplates(reader, table, query).value.nextCursor, limit);
            ValidQuery(next) && GetMissionTemplates(reader, later, next).Success?
  {
    hide Faithful, ApiCursor, Hits, CursorText, DecodeCursor;
    var last := GetMissionTemplates(reader, table, query).value.data;
    CursorPassesTheSchema(last[|last| - 1].code, last[|last| - 1].version);
    CursorIsAnswered(reader, last[|last| - 1].code, last[|last| - 1].version, later, PageLimit(Query(None, limit)));
  }

  /** What the endpoint makes of the cursor of any code and version: one that is never handed out, because its version does
      not fit the query's integer, looks like an unavailable database. */
  lemma EndpointTakesCursorExactlyWhen(reader: Reader, code: Code, version: nat, table: seq<Row>, limit: Option<int>)
    requires Faithful(reader) && InRange(version) && ValidQuery(Query(None, limit))
    ensures var page := GetMissionTemplates(reader, table, Query(Some(CursorText(code, version)), limit));
            if version <= MAX_INTEGER then page.Success? else page == Failure(DependencyUnavailable)
  {
    hide Faithful, ApiCursor, Hits, CursorText, ListMissionTemplates;
    CursorPassesTheSchema(code, version);
    CursorIsAnswered(reader, code, version, table, PageLimit(Query(None, limit)));
  }

  /** The answers a client collects from the endpoint. */
  function EndpointWalk(reader: Reader, table: seq<Row>, limit: nat, cursorValue: Option<string>): (pages: Result<seq<Page>, Error>)
    requires Faithful(reader) && limit >= 1 && DistinctBy(table, Key)
    decreases |HitsOf(reader, table, cursorValue)|
  {
    var page := GetMissionTemplates(reader, table, Query(cursorValue, Some(limit)));
    if page.Failure? then Failure(page.error)
    else if !page.value.hasMore then Success([page.value])
    else
      NextPageStarts(reader, table, limit, cursorValue);
      var rest := EndpointWalk(reader, table, limit, page.value.nextCursor);
      if rest.Failure? then rest else Success([page.value] + rest.value)
  }

  lemma EndpointAnswersAsTheListing(reader: Reader, table: seq<Row>, limit: nat, cursorValue: Option<string>)
    requires Faithful(reader) && limit <= MAX_LIMIT && limit >= 1 && DistinctBy(table, Key)
    requires cursorValue.Some? ==> ApiCursor(cursorValue.value)
    requires ListMissionTemplates(reader, table, limit, cursorValue).Success?
    ensures var page := GetMissionTemplates(reader, table, Query(cursorValue, Some(limit)));
            && page == ListMissionTemplates(reader, table, limit, cursorValue)
            && (page.value.nextCursor.Some? ==> ApiCursor(page.value.nextCursor.value))
  {
    hide Faithful, ApiCursor, Hits, CursorText, DecodeCursor;
    var data := ListMissionTemplates(reader, table, limit, cursorValue).value.data;
    if data != [] {
      CursorPassesTheSchema(data[|data| - 1].code, data[|data| - 1].version);
    }
  }

  lemma {:induction false} EndpointWalksAsTheListing(reader: Reader, table: seq<Row>, limit: nat, cursorValue: Option<string>)
    requires Faithful(reader) && limit <= MAX_LIMIT && limit >= 1 && DistinctBy(table, Key)
    requires cursorValue.Some? ==> ApiCursor(cursorValue.value)
    requires ListMissionTemplates(reader, table, limit, cursorValue).Success?
    ensures EndpointWalk(reader, table, limit, cursorValue) == Walk(reader, table, limit, cursorValue)
    decreases |HitsOf(reader, table, cursorValue)|
  {
    EndpointAnswersAsTheListing(reader, table, limit, cursorValue);
    NextPageStarts(reader, table, limit, cursorValue);
    hide Faithful, ApiCursor, ListMissionTemplates, GetMissionTemplates, HitsOf, DistinctBy;
    var page := ListMissionTemplates(reader, table, limit, cursorValue).value;
    if page.hasMore {
      EndpointWalksAsTheListing(reader, table, limit, page.nextCursor);
    }
  }

  /** A client of the endpoint that follows the cursors collects the whole table in order, for every admissible limit. */
  lemma EndpointPagesMakeTheTable(reader: Reader, table: seq<Row>, limit: nat)
    requires Faithful(reader) && ValidQuery(Query(None, Some(limit))) && DistinctBy(table, Key)
    ensures var pages := EndpointWalk(reader, table, limit, None);
            && pages.Success?
            && multiset(Rows(pages.value)) == multiset(table)
            && SortedBy(Rows(pages.value), InOrder) && DistinctBy(Rows(pages.value), Key)
            && FullUntilLast(pages.value, limit)
  {
    assert ListMissionTemplates(reader, table, limit, None).Success?;
    hide Faithful, DistinctBy, SortedBy, FullUntilLast, Rows, Walk, EndpointWalk, ListMissionTemplates;
    EndpointWalksAsTheListing(reader, table, limit, None);
    PagesMakeTheTable(reader, table, limit);
  }
}
