/**
 * The dataset downloader: fetches a file of question/answer pairs from a
 * URL, recognises JSON, CSV and plain-text layouts, and teaches every pair
 * that has a question and an answer to the learning system.
 *
 * The HTTP request, `json.loads` and the file written next to the dataset
 * are outside the model: the fetched text and the decoded JSON value come in
 * as parameters, and saving hands back the pairs it taught, in order.
 */
module UrlDownloader {
  import opened Common
  import opened Text
  import opened OrderedMap

  // ------------------------------------------------------------------ data

  /** A decoded JSON value; an object keeps its fields in document order. */
  datatype Json =
    | JNull
    | JBool(b: bool)
    | JNum(n: int)
    | JStr(s: string)
    | JArr(items: seq<Json>)
    | JObj(fields: seq<(string, Json)>)

  /** One conversation as the downloader stores it: a JSON object. */
  type Item = seq<(string, Json)>

  /** What `json.loads` made of the text: a value, or the decoder's message. */
  datatype Decoded = Decoded(value: Json) | DecodeFailed(message: string)

  /** What the HTTP request gave: the body, or the failure's message. */
  datatype Fetch = Fetched(text: string) | FetchFailed(message: string)

  datatype Parsed = Items(items: seq<Item>) | ParseFailed(message: string)

  /** The dictionary `download_and_process` returns. */
  datatype Outcome =
    | Failed(error: string)
    | Processed(downloaded: nat, saved: nat, url: string)

  const DownloadErrorPrefix := "خطا در دانلود: "
  const ParseErrorPrefix := "خطا در تجزیه: "
  const NothingFound := "هیچ مکالمه‌ای یافت نشد"
  const DataDir := "data/url_datasets"

  /** `{"q": q, "a": a}` */
  function QA(q: Json, a: Json): (item: Item)
    ensures Get(item, "q") == Some(q) && Get(item, "a") == Some(a)
  {
    var item := [("q", q), ("a", a)];
    assert Keys(item) == ["q", "a"];
    assert OrderedMap.IndexOf(item, "a") == 1;
    item
  }

  predicate HasBoth(item: Item, k1: string, k2: string) {
    HasKey(item, k1) && HasKey(item, k2)
  }

  /** Every item has a question and an answer. */
  predicate AllQA(items: seq<Item>) {
    forall i :: 0 <= i < |items| ==> HasBoth(items[i], "q", "a")
  }

  // ------------------------------------------------------------------ JSON

  /**
   * The conversation a JSON object in a list stands for: the
   * question/answer layout is tried first, then q/a (kept as it is), then
   * input/output.
   */
  function ItemOf(obj: Item): (r: Option<Item>)
    ensures r.Some? ==> HasBoth(r.value, "q", "a")
    ensures r.Some? <==>
      HasBoth(obj, "question", "answer") || HasBoth(obj, "q", "a") || HasBoth(obj, "input", "output")
  {
    if HasBoth(obj, "question", "answer") then
      Some(QA(Get(obj, "question").value, Get(obj, "answer").value))
    else if HasBoth(obj, "q", "a") then Some(obj)
    else if HasBoth(obj, "input", "output") then
      Some(QA(Get(obj, "input").value, Get(obj, "output").value))
    else None
  }

  /** The conversations of a JSON list: objects that fit a layout, in order. */
  function ItemsOf(js: seq<Json>): (r: seq<Item>)
    ensures |r| <= |js|
    ensures AllQA(r)
  {
    if js == [] then []
    else
      var init := ItemsOf(js[..|js| - 1]);
      var last := js[|js| - 1];
      if last.JObj? && ItemOf(last.fields).Some? then init + [ItemOf(last.fields).value]
      else init
  }

  /**
   * `parse_json` on a decoded value: a list is read item by item, an object
   * is read through its "conversations" field, else its "data" field, and
   * anything else holds no conversation.
   */
  function JsonConversations(j: Json): (r: seq<Item>)
    ensures AllQA(r)
    decreases j
  {
    match j
    case JArr(items) => ItemsOf(items)
    case JObj(fields) =>
      if HasKey(fields, "conversations") then
        JsonConversations(fields[OrderedMap.IndexOf(fields, "conversations")].1)
      else if HasKey(fields, "data") then
        JsonConversations(fields[OrderedMap.IndexOf(fields, "data")].1)
      else []
    case _ => []
  }

  /** An object is read through "conversations" first, then "data". */
  lemma ObjectFields(fields: seq<(string, Json)>)
    ensures HasKey(fields, "conversations") ==>
      JsonConversations(JObj(fields)) == JsonConversations(Get(fields, "conversations").value)
    ensures !HasKey(fields, "conversations") && HasKey(fields, "data") ==>
      JsonConversations(JObj(fields)) == JsonConversations(Get(fields, "data").value)
    ensures !HasKey(fields, "conversations") && !HasKey(fields, "data") ==>
      JsonConversations(JObj(fields)) == []
  {
  }

  /** `{"question": q, "answer": a}` */
  function QuestionObject(q: string, a: string): Json {
    JObj([("question", JStr(q)), ("answer", JStr(a))])
  }

  /** A list of question/answer objects, one per pair. */
  function QuestionList(ps: seq<(string, string)>): (r: seq<Json>)
    ensures |r| == |ps|
  {
    if ps == [] then []
    else QuestionList(ps[..|ps| - 1]) + [QuestionObject(ps[|ps| - 1].0, ps[|ps| - 1].1)]
  }

  /** The stored conversations for a list of text pairs. */
  function PairItems(ps: seq<(string, string)>): (r: seq<Item>)
    ensures |r| == |ps|
  {
    if ps == [] then []
    else PairItems(ps[..|ps| - 1]) + [QA(JStr(ps[|ps| - 1].0), JStr(ps[|ps| - 1].1))]
  }

  /** A first-element view of `PairItems`, for the line-based layouts. */
  lemma {:induction false} PairItemsCons(ps: seq<(string, string)>)
    requires ps != []
    ensures PairItems(ps) == [QA(JStr(ps[0].0), JStr(ps[0].1))] + PairItems(ps[1..])
    decreases |ps|
  {
    if |ps| > 1 {
      var init := ps[..|ps| - 1];
      assert init[1..] == ps[1..][..|ps[1..]| - 1];
      PairItemsCons(init);
      assert ps[1..][|ps[1..]| - 1] == ps[|ps| - 1];
    } else {
      assert ps[1..] == [];
    }
  }

  lemma QuestionObjectItem(q: string, a: string)
    ensures ItemOf(QuestionObject(q, a).fields) == Some(QA(JStr(q), JStr(a)))
  {
    var fs := QuestionObject(q, a).fields;
    assert Keys(fs) == ["question", "answer"];
    assert OrderedMap.IndexOf(fs, "answer") == 1;
  }

  /** A list of question/answer objects is read back as exactly its pairs. */
  lemma {:induction false} QuestionListRoundTrip(ps: seq<(string, string)>)
    ensures JsonConversations(JArr(QuestionList(ps))) == PairItems(ps)
    decreases |ps|
  {
    if ps != [] {
      var init := ps[..|ps| - 1];
      var (q, a) := ps[|ps| - 1];
      var js := QuestionList(ps);
      assert js[..|js| - 1] == QuestionList(init);
      QuestionListRoundTrip(init);
      QuestionObjectItem(q, a);
    }
  }

  /** The loop of `parse_json` over a decoded list, and its object cases. */
  method ParseJson(j: Json) returns (conversations: seq<Item>)
    ensures conversations == JsonConversations(j)
    decreases j
  {
    conversations := [];
    match j
    case JArr(items) =>
      var i := 0;
      while i < |items|
        invariant 0 <= i <= |items|
        invariant conversations == ItemsOf(items[..i])
      {
        assert items[..i + 1][..i] == items[..i];
        var item := items[i];
        if item.JObj? {
          var found := ItemOf(item.fields);
          if found.Some? {
            conversations := conversations + [found.value];
          }
        }
        i := i + 1;
      }
      assert items[..i] == items;
    case JObj(fields) =>
      if HasKey(fields, "conversations") {
        conversations := ParseJson(fields[OrderedMap.IndexOf(fields, "conversations")].1);
      } else if HasKey(fields, "data") {
        conversations := ParseJson(fields[OrderedMap.IndexOf(fields, "data")].1);
      }
    case _ =>
  }

  // ------------------------------------------------------------- TXT / CSV

  /** `content.strip().split('\n')` */
  function Lines(content: string): (ls: seq<string>)
    ensures |ls| >= 1 && forall l :: l in ls ==> '\n' !in l
  {
    SplitOn(Strip(content), '\n')
  }

  /**
   * `parse_txt`: consecutive lines (0, 1), (2, 3), ... are a question and
   * its answer; a pair is kept when both are non-empty once stripped.
   */
  function TxtItems(lines: seq<string>): (r: seq<Item>)
    ensures AllQA(r)
    ensures |r| <= |lines| / 2
    decreases |lines|
  {
    if |lines| < 2 then []
    else
      TxtPair(Strip(lines[0]), Strip(lines[1])) + TxtItems(lines[2..])
  }

  /** The conversation one pair of stripped lines gives, if both are non-empty. */
  function TxtPair(q: string, a: string): (r: seq<Item>)
    ensures AllQA(r) && |r| <= 1
  {
    if q != [] && a != [] then [QA(JStr(q), JStr(a))] else []
  }

  method ParseTxt(content: string) returns (conversations: seq<Item>)
    ensures conversations == TxtItems(Lines(content))
  {
    var lines := Lines(content);
    conversations := [];
    var i := 0;
    while i + 1 < |lines|
      invariant 0 <= i <= |lines|
      invariant conversations + TxtItems(lines[i..]) == TxtItems(lines)
      decreases |lines| - i
    {
      var q := Strip(lines[i]);
      var a := Strip(lines[i + 1]);
      assert lines[i..][2..] == lines[i + 2..];
      var pair, rest := TxtPair(q, a), TxtItems(lines[i + 2..]);
      assert TxtItems(lines[i..]) == pair + rest;
      AppendAssoc(conversations, pair, rest);
      conversations := conversations + pair;
      i := i + 2;
    }
  }

  /** `csv.field_size_limit()` as it stands by default. */
  const FieldLimit: nat := 131072

  /** The texts of the two `csv.Error`s a line without quotes can raise. */
  const NewlineInField: string := NewlineInField1 + NewlineInField2
  const NewlineInField1 := "new-line character seen in unquoted field"
  const NewlineInField2 := " - do you need to open the file with newline=''?"
  const FieldTooLarge := "field larger than field limit (131072)"

  /** The part of a line before its first carriage return, where `csv.reader` ends the row. */
  function BeforeCR(line: string): (p: string)
    ensures p <= line && '\r' !in p
    ensures |p| < |line| ==> line[|p|] == '\r'
  {
    if line == [] || line[0] == '\r' then [] else [line[0]] + BeforeCR(line[1..])
  }

  /**
   * One CSV line's fields: those of the line before its first carriage
   * return, split at every comma (quoting is not modelled); an empty row
   * has no fields, as `csv.reader` gives.
   */
  function CsvRow(line: string): (row: seq<string>)
    ensures row == [] <==> BeforeCR(line) == []
  {
    var p := BeforeCR(line);
    if p == [] then [] else SplitOn(p, ',')
  }

  predicate OnlyCRs(s: string) {
    s == [] || (s[0] == '\r' && OnlyCRs(s[1..]))
  }

  /** The `csv.Error` reading a line raises, if any. */
  function RowError(line: string): Option<string> {
    ScanRow(line, 0)
  }

  /**
   * The reader's scan of an unquoted line, `fieldLen` characters into the
   * current field: a character that would take a field past the limit
   * raises, a carriage return ends the row, and after it anything but
   * another carriage return raises.
   */
  function ScanRow(line: string, fieldLen: nat): (e: Option<string>)
    decreases |line|
  {
    if line == [] then None
    else if line[0] == '\r' then (if OnlyCRs(line[1..]) then None else Some(NewlineInField))
    else if line[0] == ',' then ScanRow(line[1..], 0)
    else if fieldLen >= FieldLimit then Some(FieldTooLarge)
    else ScanRow(line[1..], fieldLen + 1)
  }

  /** The error of the first data line that raises, if any. */
  function FirstRowError(rows: seq<string>): (e: Option<string>)
    ensures e.None? <==> forall i :: 0 <= i < |rows| ==> RowError(rows[i]).None?
    ensures e.Some? ==> exists i :: 0 <= i < |rows| && RowError(rows[i]) == e
    decreases |rows|
  {
    if rows == [] then None
    else if RowError(rows[0]).Some? then RowError(rows[0])
    else
      var e := FirstRowError(rows[1..]);
      assert forall i :: 0 <= i < |rows[1..]| ==> rows[1..][i] == rows[i + 1];
      e
  }

  /** A scan that meets no carriage return and no field past the limit raises nothing. */
  lemma {:induction false} ScanClean(line: string, n: nat)
    requires '\r' !in line && n + |line| <= FieldLimit
    ensures ScanRow(line, n).None?
    decreases |line|
  {
    if line != [] {
      assert '\r' !in line[1..] by { assert forall x :: x in line[1..] ==> x in line; }
      if line[0] == ',' {
        ScanClean(line[1..], 0);
      } else {
        ScanClean(line[1..], n + 1);
      }
    }
  }

  /** A scan that meets a carriage return followed by another character raises. */
  lemma {:induction false} ScanAfterCR(line: string, n: nat, i: nat, j: nat)
    requires i < j < |line| && line[i] == '\r' && line[j] != '\r'
    ensures ScanRow(line, n).Some?
    decreases |line|
  {
    if line[0] == '\r' {
      OnlyCRsAt(line[1..], j - 1);
    } else if i > 0 {
      ScanAfterCR(line[1..], if line[0] == ',' then 0 else n + 1, i - 1, j - 1);
    }
  }

  lemma {:induction false} OnlyCRsAt(s: string, k: nat)
    requires k < |s| && s[k] != '\r'
    ensures !OnlyCRs(s)
    decreases |s|
  {
    if k > 0 && s[0] == '\r' {
      OnlyCRsAt(s[1..], k - 1);
    }
  }

  /** A comma after a clean first field starts the scan of the next one afresh. */
  lemma {:induction false} ScanFirstField(q: string, rest: string, n: nat)
    requires '\r' !in q && ',' !in q && n + |q| <= FieldLimit
    ensures ScanRow(q + "," + rest, n) == ScanRow(rest, 0)
    decreases |q|
  {
    var line := q + "," + rest;
    if q == [] {
      assert line[0] == ',' && line[1..] == rest;
    } else {
      assert line[0] == q[0] && line[1..] == q[1..] + "," + rest;
      assert '\r' !in q[1..] && ',' !in q[1..] by { assert forall x :: x in q[1..] ==> x in q; }
      ScanFirstField(q[1..], rest, n + 1);
    }
  }

  /**
   * A line without carriage returns and no longer than the field limit is
   * read without error; a line with a carriage return followed by any
   * other character raises.
   */
  lemma RowErrorCases(line: string)
    ensures '\r' !in line && |line| <= FieldLimit ==> RowError(line).None?
    ensures (exists i, j :: 0 <= i < j < |line| && line[i] == '\r' && line[j] != '\r') ==> RowError(line).Some?
  {
    if '\r' !in line && |line| <= FieldLimit {
      ScanClean(line, 0);
    }
    if exists i, j :: 0 <= i < j < |line| && line[i] == '\r' && line[j] != '\r' {
      var i, j :| 0 <= i < j < |line| && line[i] == '\r' && line[j] != '\r';
      ScanAfterCR(line, 0, i, j);
    }
  }

  /** The data rows of `parse_csv`: rows of two or more fields, stripped. */
  function CsvItems(rows: seq<string>): (r: seq<Item>)
    ensures AllQA(r)
    ensures |r| <= |rows|
    decreases |rows|
  {
    if rows == [] then []
    else
      CsvPair(CsvRow(rows[0])) + CsvItems(rows[1..])
  }

  /** The conversation one CSV row gives: its first two fields, stripped. */
  function CsvPair(row: seq<string>): (r: seq<Item>)
    ensures AllQA(r) && |r| <= 1
  {
    if |row| >= 2 then [QA(JStr(Strip(row[0])), JStr(Strip(row[1])))] else []
  }

  /**
   * `parse_csv`: the first row is the header and an empty header means no
   * data. `csv.reader` reads the rows one at a time, so the first line that
   * raises makes the whole call raise with its error; after an empty header
   * no further line is read.
   */
  function CsvConversations(content: string): (r: Parsed)
    ensures r.Items? ==> AllQA(r.items)
  {
    var lines := Lines(content);
    match RowError(lines[0])
    case Some(e) => ParseFailed(e)
    case None =>
      if CsvRow(lines[0]) == [] then Items([])
      else
        match FirstRowError(lines[1..])
        case Some(e) => ParseFailed(e)
        case None => Items(CsvItems(lines[1..]))
  }

  /**
   * `parse_csv` raises exactly when the header raises, or the header has
   * fields and some data line raises; otherwise every data row of two or
   * more fields gives a conversation.
   */
  lemma CsvRaisesIff(content: string)
    ensures var lines := Lines(content);
      var r := CsvConversations(content);
      (r.ParseFailed? <==>
        RowError(lines[0]).Some?
        || (CsvRow(lines[0]) != [] && exists k :: 1 <= k < |lines| && RowError(lines[k]).Some?))
      && (r.Items? ==> r.items == if CsvRow(lines[0]) == [] then [] else CsvItems(lines[1..]))
  {
    var lines := Lines(content);
    TailRaises(lines);
  }

  /** Some data line raises exactly when the first-error scan of the data lines finds one. */
  lemma TailRaises(lines: seq<string>)
    requires |lines| >= 1
    ensures FirstRowError(lines[1..]).Some? <==> exists k :: 1 <= k < |lines| && RowError(lines[k]).Some?
  {
    if exists k :: 1 <= k < |lines| && RowError(lines[k]).Some? {
      var k :| 1 <= k < |lines| && RowError(lines[k]).Some?;
      assert lines[1..][k - 1] == lines[k];
    }
    if FirstRowError(lines[1..]).Some? {
      var k :| 0 <= k < |lines[1..]| && RowError(lines[1..][k]) == FirstRowError(lines[1..]);
      assert lines[1..][k] == lines[k + 1];
    }
  }

  method ParseCsv(content: string) returns (r: Parsed)
    ensures r == CsvConversations(content)
  {
    var lines := Lines(content);
    var header := RowError(lines[0]);
    if header.Some? {
      return ParseFailed(header.value);
    }
    if CsvRow(lines[0]) == [] {
      return Items([]);
    }
    var conversations := [];
    var i := 1;
    while i < |lines|
      invariant 1 <= i <= |lines|
      invariant conversations + CsvItems(lines[i..]) == CsvItems(lines[1..])
      invariant FirstRowError(lines[i..]) == FirstRowError(lines[1..])
    {
      CsvStep(lines, i);
      var e := RowError(lines[i]);
      if e.Some? {
        return ParseFailed(e.value);
      }
      var pair, rest := CsvPair(CsvRow(lines[i])), CsvItems(lines[i + 1..]);
      AppendAssoc(conversations, pair, rest);
      conversations := conversations + pair;
      i := i + 1;
    }
    assert lines[i..] == [];
    r := Items(conversations);
  }

  /** One step of the row loop: the line's conversation, and its error or none. */
  lemma CsvStep(lines: seq<string>, i: nat)
    requires i < |lines|
    ensures CsvItems(lines[i..]) == CsvPair(CsvRow(lines[i])) + CsvItems(lines[i + 1..])
    ensures FirstRowError(lines[i..]) == if RowError(lines[i]).Some? then RowError(lines[i]) else FirstRowError(lines[i + 1..])
  {
    assert lines[i..][1..] == lines[i + 1..];
  }

  // ------------------------------------------------------ text round trips

  /** A line that survives stripping and splitting unchanged. */
  predicate CleanLine(s: string) {
    s != [] && !IsSpace(s[0]) && !IsSpace(s[|s| - 1]) && '\n' !in s
  }

  /** A join starts with its first piece. */
  lemma JoinStart(ls: seq<string>, sep: string)
    requires |ls| >= 1 && ls[0] != []
    ensures var j := Join(ls, sep); j != [] && j[0] == ls[0][0]
  {
  }

  /** A join ends with its last piece. */
  lemma {:induction false} JoinEnd(ls: seq<string>, sep: string)
    requires |ls| >= 1 && ls[|ls| - 1] != []
    ensures var j := Join(ls, sep); j != [] && j[|j| - 1] == ls[|ls| - 1][|ls[|ls| - 1]| - 1]
    decreases |ls|
  {
    if |ls| > 1 {
      var rest := ls[1..];
      assert rest[|rest| - 1] == ls[|ls| - 1];
      JoinEnd(rest, sep);
    }
  }

  /** Lines with clean ends and no newline come back from `Lines` unchanged. */
  lemma LinesOfJoin(ls: seq<string>)
    requires |ls| >= 1 && CleanLine(ls[0]) && CleanLine(ls[|ls| - 1])
    requires forall l :: l in ls ==> '\n' !in l
    ensures Lines(Join(ls, "\n")) == ls
  {
    JoinStart(ls, "\n");
    JoinEnd(ls, "\n");
    StripNoop(Join(ls, "\n"));
    SplitOnJoin(ls, '\n');
  }

  /** The lines of a text dataset: each question followed by its answer. */
  function TxtLines(ps: seq<(string, string)>): (ls: seq<string>)
    ensures |ls| == 2 * |ps|
    ensures forall i :: 0 <= i < |ps| ==> ls[2 * i] == ps[i].0 && ls[2 * i + 1] == ps[i].1
  {
    if ps == [] then [] else [ps[0].0, ps[0].1] + TxtLines(ps[1..])
  }

  predicate CleanPairs(ps: seq<(string, string)>) {
    forall i :: 0 <= i < |ps| ==> CleanLine(ps[i].0) && CleanLine(ps[i].1)
  }

  lemma {:induction false} TxtItemsOfLines(ps: seq<(string, string)>)
    requires CleanPairs(ps)
    ensures TxtItems(TxtLines(ps)) == PairItems(ps)
    decreases |ps|
  {
    if ps != [] {
      var ls := TxtLines(ps);
      assert ls[2..] == TxtLines(ps[1..]);
      StripNoop(ps[0].0);
      StripNoop(ps[0].1);
      assert CleanPairs(ps[1..]) by {
        forall i | 0 <= i < |ps[1..]| ensures CleanLine(ps[1..][i].0) && CleanLine(ps[1..][i].1) {
          assert ps[1..][i] == ps[i + 1];
        }
      }
      TxtItemsOfLines(ps[1..]);
      PairItemsCons(ps);
    }
  }

  /** Lines that are each clean hold no newline. */
  lemma CleanLinesNoNewline(ls: seq<string>)
    requires forall k :: 0 <= k < |ls| ==> CleanLine(ls[k])
    ensures forall l :: l in ls ==> '\n' !in l
  {
    forall l | l in ls ensures '\n' !in l {
      var k :| 0 <= k < |ls| && ls[k] == l;
      assert CleanLine(ls[k]);
    }
  }

  /** Every line of a text dataset of clean pairs is clean. */
  lemma TxtLinesClean(ps: seq<(string, string)>)
    requires CleanPairs(ps)
    ensures forall k :: 0 <= k < |TxtLines(ps)| ==> CleanLine(TxtLines(ps)[k])
  {
    var ls := TxtLines(ps);
    forall k | 0 <= k < |ls| ensures CleanLine(ls[k]) {
      if k % 2 == 0 {
        assert ls[2 * (k / 2)] == ps[k / 2].0;
      } else {
        assert ls[2 * (k / 2) + 1] == ps[k / 2].1;
      }
    }
  }

  /** A text file of clean question and answer lines reads back as its pairs. */
  lemma TxtRoundTrip(ps: seq<(string, string)>)
    requires ps != [] && CleanPairs(ps)
    ensures TxtItems(Lines(Join(TxtLines(ps), "\n"))) == PairItems(ps)
  {
    var ls := TxtLines(ps);
    TxtLinesClean(ps);
    CleanLinesNoNewline(ls);
    assert CleanLine(ls[0]) && CleanLine(ls[|ls| - 1]);
    LinesOfJoin(ls);
    TxtItemsOfLines(ps);
  }

  /** A field that splitting at commas and stripping leave as it is, and that `csv.reader` reads without error. */
  predicate CleanField(s: string) {
    CleanLine(s) && ',' !in s && '\r' !in s && |s| <= FieldLimit
  }

  /** A header line that `csv.reader` reads without error. */
  predicate CleanHeader(s: string) {
    CleanLine(s) && '\r' !in s && |s| <= FieldLimit
  }

  /** The data lines of a CSV dataset: `q,a` per pair. */
  function CsvLines(ps: seq<(string, string)>): (ls: seq<string>)
    ensures |ls| == |ps|
    ensures forall i :: 0 <= i < |ps| ==> ls[i] == ps[i].0 + "," + ps[i].1
  {
    if ps == [] then [] else [ps[0].0 + "," + ps[0].1] + CsvLines(ps[1..])
  }

  lemma CsvRowOfPair(q: string, a: string)
    requires CleanField(q) && CleanField(a)
    ensures CsvRow(q + "," + a) == [q, a]
    ensures RowError(q + "," + a).None?
  {
    var line := q + "," + a;
    assert '\r' !in line by {
      assert forall k :: 0 <= k < |line| ==> line[k] == (if k < |q| then q[k] else if k == |q| then ',' else a[k - |q| - 1]);
    }
    assert BeforeCR(line) == line;
    assert Join([q, a], ",") == q + "," + Join([a], ",");
    SplitOnJoin([q, a], ',');
    ScanFirstField(q, a, 0);
    ScanClean(a, 0);
  }

  /** Clean `q,a` rows raise nothing. */
  lemma {:induction false} CsvLinesNoError(ps: seq<(string, string)>)
    requires forall i :: 0 <= i < |ps| ==> CleanField(ps[i].0) && CleanField(ps[i].1)
    ensures FirstRowError(CsvLines(ps)).None?
    decreases |ps|
  {
    if ps != [] {
      var ls := CsvLines(ps);
      assert ls[1..] == CsvLines(ps[1..]);
      CsvRowOfPair(ps[0].0, ps[0].1);
      assert forall i :: 0 <= i < |ps[1..]| ==> ps[1..][i] == ps[i + 1];
      CsvLinesNoError(ps[1..]);
    }
  }

  lemma {:induction false} CsvItemsOfLines(ps: seq<(string, string)>)
    requires forall i :: 0 <= i < |ps| ==> CleanField(ps[i].0) && CleanField(ps[i].1)
    ensures CsvItems(CsvLines(ps)) == PairItems(ps)
    decreases |ps|
  {
    if ps != [] {
      var ls := CsvLines(ps);
      assert ls[1..] == CsvLines(ps[1..]);
      CsvRowOfPair(ps[0].0, ps[0].1);
      StripNoop(ps[0].0);
      StripNoop(ps[0].1);
      assert forall i :: 0 <= i < |ps[1..]| ==> ps[1..][i] == ps[i + 1];
      CsvItemsOfLines(ps[1..]);
      PairItemsCons(ps);
    }
  }

  /** A row of two clean fields is a clean line. */
  lemma CleanRow(q: string, a: string)
    requires CleanField(q) && CleanField(a)
    ensures CleanLine(q + "," + a)
  {
    var row := q + "," + a;
    assert row[|row| - 1] == a[|a| - 1];
    assert forall k :: 0 <= k < |row| ==> row[k] == (if k < |q| then q[k] else if k == |q| then ',' else a[k - |q| - 1]);
  }

  lemma CsvLinesClean(ps: seq<(string, string)>)
    requires forall i :: 0 <= i < |ps| ==> CleanField(ps[i].0) && CleanField(ps[i].1)
    ensures forall i :: 0 <= i < |ps| ==> CleanLine(CsvLines(ps)[i])
  {
    forall i | 0 <= i < |ps| ensures CleanLine(CsvLines(ps)[i]) {
      CleanRow(ps[i].0, ps[i].1);
    }
  }

  /** Every line of a CSV file with a clean header and clean rows is clean. */
  lemma CsvFileClean(header: string, ps: seq<(string, string)>)
    requires CleanHeader(header)
    requires forall i :: 0 <= i < |ps| ==> CleanField(ps[i].0) && CleanField(ps[i].1)
    ensures forall k :: 0 <= k < |[header] + CsvLines(ps)| ==> CleanLine(([header] + CsvLines(ps))[k])
  {
    var rows := CsvLines(ps);
    var ls := [header] + rows;
    CsvLinesClean(ps);
    forall k | 0 <= k < |ls| ensures CleanLine(ls[k]) {
      if k > 0 {
        assert ls[k] == rows[k - 1];
      }
    }
  }

  /** A CSV file with a header and clean `q,a` rows reads back as its pairs, without error. */
  lemma CsvRoundTrip(header: string, ps: seq<(string, string)>)
    requires CleanHeader(header)
    requires forall i :: 0 <= i < |ps| ==> CleanField(ps[i].0) && CleanField(ps[i].1)
    ensures CsvConversations(Join([header] + CsvLines(ps), "\n")) == Items(PairItems(ps))
  {
    var ls := [header] + CsvLines(ps);
    assert ls[1..] == CsvLines(ps);
    CsvFileClean(header, ps);
    CleanLinesNoNewline(ls);
    assert CleanLine(ls[0]) && CleanLine(ls[|ls| - 1]);
    LinesOfJoin(ls);
    CleanHeaderReads(header);
    CsvLinesNoError(ps);
    CsvOfLines(Join(ls, "\n"), ls);
    CsvItemsOfLines(ps);
  }

  /** A clean header is read without error and has fields. */
  lemma CleanHeaderReads(header: string)
    requires CleanHeader(header)
    ensures RowError(header).None? && CsvRow(header) != []
  {
    ScanClean(header, 0);
    assert BeforeCR(header) == header;
  }

  /** A text whose header has fields and whose lines raise nothing reads as the rows' conversations. */
  lemma CsvOfLines(content: string, lines: seq<string>)
    requires Lines(content) == lines
    requires RowError(lines[0]).None? && CsvRow(lines[0]) != [] && FirstRowError(lines[1..]).None?
    ensures CsvConversations(content) == Items(CsvItems(lines[1..]))
  {
  }

  // -------------------------------------------------------------- dispatch

  predicate EndsWith(s: string, suffix: string) {
    |suffix| <= |s| && s[|s| - |suffix|..] == suffix
  }

  /** A URL that names none of the three layouts. */
  predicate NoSuffix(url: string) {
    !EndsWith(url, ".json") && !EndsWith(url, ".csv") && !EndsWith(url, ".txt")
  }

  /**
   * `parse_dataset`: the URL's extension picks the layout, and an error of
   * the chosen parser is reported with the parse prefix. Without an
   * extension JSON is tried, then CSV when the text does not decode, then
   * plain text when the CSV reader raises. `decoded` is `json.loads(content)`.
   */
  function Dataset(content: string, url: string, decoded: Decoded): (r: Parsed)
    ensures r.Items? ==> AllQA(r.items)
  {
    if EndsWith(url, ".json") then
      match decoded
      case Decoded(v) => Items(JsonConversations(v))
      case DecodeFailed(m) => ParseFailed(ParseErrorPrefix + m)
    else if EndsWith(url, ".csv") then
      match CsvConversations(content)
      case Items(data) => Items(data)
      case ParseFailed(m) => ParseFailed(ParseErrorPrefix + m)
    else if EndsWith(url, ".txt") then Items(TxtItems(Lines(content)))
    else if decoded.Decoded? then Items(JsonConversations(decoded.value))
    else
      match CsvConversations(content)
      case Items(data) => Items(data)
      case ParseFailed(_) => Items(TxtItems(Lines(content)))
  }

  /**
   * Only a `.json` URL whose text does not decode and a `.csv` URL whose
   * text the CSV reader refuses fail, each with the parse prefix and the
   * parser's message; a URL without an extension whose text neither
   * decodes nor reads as CSV is read as plain text.
   */
  lemma DatasetFailures(content: string, url: string, decoded: Decoded)
    ensures var r := Dataset(content, url, decoded);
      (r.ParseFailed? <==>
        (EndsWith(url, ".json") && decoded.DecodeFailed?)
        || (!EndsWith(url, ".json") && EndsWith(url, ".csv") && CsvConversations(content).ParseFailed?))
      && (r.ParseFailed? ==>
            r.message == ParseErrorPrefix + (if EndsWith(url, ".json") then decoded.message else CsvConversations(content).message))
      && (NoSuffix(url) && decoded.DecodeFailed? && CsvConversations(content).ParseFailed? ==>
            r == Items(TxtItems(Lines(content))))
  {
    DatasetFailsIff(content, url, decoded);
    DatasetFailureMessage(content, url, decoded);
    DatasetTxtFallback(content, url, decoded);
  }

  lemma DatasetFailsIff(content: string, url: string, decoded: Decoded)
    ensures Dataset(content, url, decoded).ParseFailed? <==>
        (EndsWith(url, ".json") && decoded.DecodeFailed?)
        || (!EndsWith(url, ".json") && EndsWith(url, ".csv") && CsvConversations(content).ParseFailed?)
  {
    var csv := CsvConversations(content);
    if !EndsWith(url, ".json") && EndsWith(url, ".csv") && csv.ParseFailed? {
      assert Dataset(content, url, decoded) == ParseFailed(ParseErrorPrefix + csv.message);
    }
  }

  lemma DatasetFailureMessage(content: string, url: string, decoded: Decoded)
    ensures var r := Dataset(content, url, decoded);
      r.ParseFailed? ==>
        r.message == ParseErrorPrefix + (if EndsWith(url, ".json") then decoded.message else CsvConversations(content).message)
  {
    var r := Dataset(content, url, decoded);
    if EndsWith(url, ".json") {
      if decoded.DecodeFailed? {
        assert r == ParseFailed(ParseErrorPrefix + decoded.message);
      }
    } else {
      var csv := CsvConversations(content);
      if EndsWith(url, ".csv") && csv.ParseFailed? {
        assert r == ParseFailed(ParseErrorPrefix + csv.message);
      } else {
        DatasetFailsIff(content, url, decoded);
      }
    }
  }

  lemma DatasetTxtFallback(content: string, url: string, decoded: Decoded)
    ensures NoSuffix(url) && decoded.DecodeFailed? && CsvConversations(content).ParseFailed? ==>
      Dataset(content, url, decoded) == Items(TxtItems(Lines(content)))
  {
  }

  method ParseDataset(content: string, url: string, decoded: Decoded) returns (r: Parsed)
    ensures r == Dataset(content, url, decoded)
  {
    if EndsWith(url, ".json") {
      match decoded
      case Decoded(v) =>
        var items := ParseJson(v);
        r := Items(items);
      case DecodeFailed(m) =>
        r := ParseFailed(ParseErrorPrefix + m);
    } else if EndsWith(url, ".csv") {
      var csv := ParseCsv(content);
      match csv
      case Items(items) =>
        r := Items(items);
      case ParseFailed(m) =>
        r := ParseFailed(ParseErrorPrefix + m);
    } else if EndsWith(url, ".txt") {
      var items := ParseTxt(content);
      r := Items(items);
    } else if decoded.Decoded? {
      var items := ParseJson(decoded.value);
      r := Items(items);
    } else {
      var csv := ParseCsv(content);
      match csv
      case Items(items) =>
        r := Items(items);
      case ParseFailed(_) =>
        var items := ParseTxt(content);
        r := Items(items);
    }
  }

  // ------------------------------------------------------------------ save

  /**
   * An item `save_to_fox` teaches: it has "q" and "a", and the question is
   * a string (`teach_response` lower-cases it, which fails on anything else
   * and the loop skips that item).
   */
  predicate Teachable(item: Item) {
    HasBoth(item, "q", "a") && Get(item, "q").value.JStr?
  }

  function TeachableItem(): Item -> bool {
    item => Teachable(item)
  }

  /** The (trigger, response) pairs handed to `teach_response`, in order. */
  function Taught(data: seq<Item>): (r: seq<(string, Json)>)
    ensures |r| == CountIf(data, TeachableItem())
  {
    if data == [] then []
    else
      TaughtBy(data[0]) + Taught(data[1..])
  }

  /** The pair one item hands to `teach_response`, if it is teachable. */
  function TaughtBy(item: Item): (r: seq<(string, Json)>)
    ensures |r| == if Teachable(item) then 1 else 0
  {
    if Teachable(item) then [(Get(item, "q").value.s, Get(item, "a").value)] else []
  }

  /** Every conversation the text layouts produce is taught. */
  lemma {:induction false} AllStringsTaught(data: seq<Item>)
    requires forall i :: 0 <= i < |data| ==> HasBoth(data[i], "q", "a") && Get(data[i], "q").value.JStr?
    ensures CountIf(data, TeachableItem()) == |data|
    decreases |data|
  {
    if data != [] {
      assert forall i :: 0 <= i < |data[1..]| ==> data[1..][i] == data[i + 1];
      AllStringsTaught(data[1..]);
    }
  }

  lemma {:induction false} TxtItemsTeachable(lines: seq<string>)
    ensures CountIf(TxtItems(lines), TeachableItem()) == |TxtItems(lines)|
    decreases |lines|
  {
    if |lines| >= 2 {
      var head := TxtPair(Strip(lines[0]), Strip(lines[1]));
      TxtItemsTeachable(lines[2..]);
      CountIfAppend(head, TxtItems(lines[2..]), TeachableItem());
    }
  }

  lemma {:induction false} CsvItemsTeachable(rows: seq<string>)
    ensures CountIf(CsvItems(rows), TeachableItem()) == |CsvItems(rows)|
    decreases |rows|
  {
    if rows != [] {
      var head := CsvPair(CsvRow(rows[0]));
      CsvItemsTeachable(rows[1..]);
      CountIfAppend(head, CsvItems(rows[1..]), TeachableItem());
    }
  }

  /** `url.split('/')[-1] or "dataset"` */
  function FileName(url: string): (name: string)
    ensures name != [] && '/' !in name
    ensures url == [] ==> name == "dataset"
  {
    var parts := SplitOn(url, '/');
    var last := parts[|parts| - 1];
    assert last in parts;
    if last == [] then "dataset" else last
  }

  /** The file the downloaded conversations are written to. */
  function SavedFile(url: string): (path: string)
    ensures path == DataDir + "/" + FileName(url) + ".json"
  {
    DataDir + "/" + FileName(url) + ".json"
  }

  /** The loop of `save_to_fox`: teaches each teachable item and counts it. */
  method SaveToFox(data: seq<Item>) returns (saved: nat, taught: seq<(string, Json)>)
    ensures saved == CountIf(data, TeachableItem()) && saved <= |data|
    ensures taught == Taught(data)
  {
    saved := 0;
    taught := [];
    var i := 0;
    while i < |data|
      invariant 0 <= i <= |data|
      invariant saved + CountIf(data[i..], TeachableItem()) == CountIf(data, TeachableItem())
      invariant taught + Taught(data[i..]) == Taught(data)
    {
      assert data[i..][1..] == data[i + 1..];
      var item := data[i];
      var pair, rest := TaughtBy(item), Taught(data[i + 1..]);
      assert Taught(data[i..]) == pair + rest;
      AppendAssoc(taught, pair, rest);
      if HasBoth(item, "q", "a") && Get(item, "q").value.JStr? {
        taught := taught + pair;
        saved := saved + 1;
      } else {
        assert taught + pair == taught;
      }
      i := i + 1;
    }
  }

  // ------------------------------------------------------------- pipeline

  /** `download_and_process` as a function of what the fetch and decode gave. */
  function Processing(url: string, fetch: Fetch, decoded: Decoded): (r: Outcome)
    ensures fetch.FetchFailed? ==> r == Failed(DownloadErrorPrefix + fetch.message)
    ensures r.Processed? ==> r.url == url && 0 < r.downloaded && r.saved <= r.downloaded
  {
    match fetch
    case FetchFailed(m) => Failed(DownloadErrorPrefix + m)
    case Fetched(content) =>
      match Dataset(content, url, decoded)
      case ParseFailed(m) => Failed(m)
      case Items(data) =>
        if data == [] then Failed(NothingFound)
        else Processed(|data|, CountIf(data, TeachableItem()), url)
  }

  /** A text download is taught completely: nothing it yields is skipped. */
  lemma TextDownloadsAllSaved(url: string, content: string, decoded: Decoded)
    requires !EndsWith(url, ".json") && !EndsWith(url, ".csv") && EndsWith(url, ".txt")
    ensures var r := Processing(url, Fetched(content), decoded);
      r.Processed? ==> r.saved == r.downloaded
  {
    TxtItemsTeachable(Lines(content));
  }

  /** A CSV download is taught completely as well. */
  lemma CsvDownloadsAllSaved(url: string, content: string, decoded: Decoded)
    requires !EndsWith(url, ".json") && EndsWith(url, ".csv")
    ensures var r := Processing(url, Fetched(content), decoded);
      r.Processed? ==> r.saved == r.downloaded
  {
    var lines := Lines(content);
    var csv := CsvConversations(content);
    if csv.Items? {
      assert Dataset(content, url, decoded) == csv;
      CsvRaisesIff(content);
      CsvItemsTeachable(lines[1..]);
    } else {
      assert Dataset(content, url, decoded).ParseFailed?;
    }
  }

  /** A question/answer JSON list downloads as exactly its pairs. */
  lemma JsonDownloadOfPairs(url: string, content: string, ps: seq<(string, string)>)
    requires EndsWith(url, ".json") && ps != []
    ensures Processing(url, Fetched(content), Decoded(JArr(QuestionList(ps))))
      == Processed(|ps|, |ps|, url)
  {
    QuestionListRoundTrip(ps);
    JsonDataset(content, url, JArr(QuestionList(ps)));
    PairItemsTaught(ps);
  }

  /** A `.json` URL whose text decodes reads the decoded value's conversations. */
  lemma JsonDataset(content: string, url: string, v: Json)
    requires EndsWith(url, ".json")
    ensures Dataset(content, url, Decoded(v)) == Items(JsonConversations(v))
  {
  }

  /** Every conversation built from string pairs is taught. */
  lemma PairItemsTaught(ps: seq<(string, string)>)
    ensures CountIf(PairItems(ps), TeachableItem()) == |ps|
  {
    var data := PairItems(ps);
    AllStringsTaught(data) by {
      forall i | 0 <= i < |data| ensures HasBoth(data[i], "q", "a") && Get(data[i], "q").value.JStr? {
        PairItemsAt(ps, i);
      }
    }
  }

  lemma {:induction false} PairItemsAt(ps: seq<(string, string)>, i: nat)
    requires i < |ps|
    ensures PairItems(ps)[i] == QA(JStr(ps[i].0), JStr(ps[i].1))
    decreases |ps|
  {
    if i < |ps| - 1 {
      PairItemsAt(ps[..|ps| - 1], i);
    }
  }

  class UrlDatasetDownloader {
    /** The pairs taught to the learning system so far, in order. */
    var taught: seq<(string, Json)>

    constructor()
      ensures taught == []
    {
      taught := [];
    }

    /**
     * Downloads, parses and saves one dataset: every failure is reported
     * with its message and teaches nothing; a dataset with no conversation
     * is refused; otherwise its teachable items are taught in order.
     */
    method DownloadAndProcess(url: string, fetch: Fetch, decoded: Decoded) returns (r: Outcome)
      modifies this
      ensures r == Processing(url, fetch, decoded)
      ensures r.Failed? ==> taught == old(taught)
      ensures fetch.Fetched? && r.Processed? ==>
        var d := Dataset(fetch.text, url, decoded);
        taught == old(taught) + Taught(d.items)
    {
      match fetch
      case FetchFailed(m) =>
        r := Failed(DownloadErrorPrefix + m);
      case Fetched(content) =>
        var parsed := ParseDataset(content, url, decoded);
        match parsed
        case ParseFailed(m) =>
          r := Failed(m);
        case Items(data) =>
          if data == [] {
            r := Failed(NothingFound);
          } else {
            var saved, pairs := SaveToFox(data);
            taught := taught + pairs;
            r := Processed(|data|, saved, url);
          }
    }
  }
}
