/**
 * The front end's CSV export (vue/lib/jsonToCsv.js, JsonToCsv.convert):
 * the samples of a saved result, renamed to readable column names, become
 * tab-separated rows under four metadata lines, a blank line and a header.
 *
 * JavaScript values are modelled by JsValue; a record is a map from
 * property name to value, where a missing property reads as undefined.
 * Number-to-string conversion (Number.prototype.toString, a floating-point
 * algorithm) is a parameter, numToStr.
 */
module Csv {

  datatype JsValue = Num(x: real) | Str(s: string) | Bool(b: bool) | Undefined | Null

  /** An element of the input array: an object, null or undefined, or another primitive. */
  datatype Elem = Obj(props: map<string, JsValue>) | Nullish | Primitive

  /** The argument: an array, or anything else. */
  datatype Input = Array(elems: seq<Elem>) | NotArray

  /** Why convert throws: its own check, or a TypeError reading a property of null. */
  datatype Failure = NotNonEmptyArray | TypeError

  datatype Outcome = Ok(csv: string) | Throws(reason: Failure)

  /** The column names, in the order of the renamed object's keys. */
  const HEADERS: seq<string> := ["distance", "force", "time", "min", "max"]

  /** The short keys of a stored sample, column by column. */
  const SHORT_KEYS: seq<string> := ["d", "f", "t", "mi", "ma"]

  const TAB: char := '\t'
  const NL: char := '\n'

  /** obj.key: undefined when missing, and on a primitive other than null or undefined. */
  function Prop(e: Elem, key: string): JsValue
    requires !e.Nullish?
  {
    if e.Obj? && key in e.props then e.props[key] else Undefined
  }

  /** The renamed record's values, in header order. */
  function Renamed(e: Elem): (vs: seq<JsValue>)
    requires !e.Nullish?
    ensures |vs| == |HEADERS|
    ensures forall i :: 0 <= i < |vs| ==> vs[i] == Prop(e, SHORT_KEYS[i])
  {
    [Prop(e, "d"), Prop(e, "f"), Prop(e, "t"), Prop(e, "mi"), Prop(e, "ma")]
  }

  /** String.prototype.replace with a string pattern: only the first match is replaced. */
  function ReplaceFirst(s: string, from: char, to: char): (r: string)
    ensures |r| == |s|
  {
    if s == [] then []
    else if s[0] == from then [to] + s[1..]
    else [s[0]] + ReplaceFirst(s[1..], from, to)
  }

  /** Every double quote written twice (value.replace(/"/g, '""')). */
  function DoubleQuotes(s: string): string {
    if s == [] then []
    else (if s[0] == '"' then "\"\"" else [s[0]]) + DoubleQuotes(s[1..])
  }

  /** A string holding a tab, wrapped in double quotes with inner quotes doubled; any other string as is. */
  function Escape(s: string): string {
    if TAB in s then "\"" + DoubleQuotes(s) + "\"" else s
  }

  /**
   * One field of a row, as Array.prototype.join sees it after the row's
   * map: a number becomes its string with the first "." turned into ",",
   * then strings are escaped; undefined and null join as empty text.
   */
  function Cell(v: JsValue, numToStr: real -> string): string {
    match v
    case Num(x) => Escape(ReplaceFirst(numToStr(x), '.', ','))
    case Str(s) => Escape(s)
    case Bool(b) => if b then "true" else "false"
    case Undefined => ""
    case Null => ""
  }

  /** A value inside a template literal: String(value). */
  function TemplateStr(v: JsValue, numToStr: real -> string): string {
    match v
    case Num(x) => numToStr(x)
    case Str(s) => s
    case Bool(b) => if b then "true" else "false"
    case Undefined => "undefined"
    case Null => "null"
  }

  /** arr.join(sep) over strings. */
  function Join(parts: seq<string>, sep: char): string {
    if parts == [] then ""
    else if |parts| == 1 then parts[0]
    else parts[0] + [sep] + Join(parts[1..], sep)
  }

  /** s.split(sep): the pieces between separators, one more than there are separators. */
  function Split(s: string, sep: char): (pieces: seq<string>)
    ensures |pieces| >= 1
    decreases |s|
  {
    if s == [] then [""]
    else
      var rest := Split(s[1..], sep);
      if s[0] == sep then [""] + rest else [[s[0]] + rest[0]] + rest[1..]
  }

  /** One data row: the element's five cells joined by tabs. */
  function Row(e: Elem, numToStr: real -> string): string
    requires !e.Nullish?
  {
    var vs := Renamed(e);
    Join([Cell(vs[0], numToStr), Cell(vs[1], numToStr), Cell(vs[2], numToStr),
          Cell(vs[3], numToStr), Cell(vs[4], numToStr)], TAB)
  }

  function Rows(elems: seq<Elem>, numToStr: real -> string): (rows: seq<string>)
    requires forall i :: 0 <= i < |elems| ==> !elems[i].Nullish?
    ensures |rows| == |elems|
    ensures forall i :: 0 <= i < |elems| ==> rows[i] == Row(elems[i], numToStr)
  {
    if elems == [] then [] else [Row(elems[0], numToStr)] + Rows(elems[1..], numToStr)
  }

  /** The four metadata lines and the blank line that precede the header. */
  function Metadata(name: JsValue, date: JsValue, description: JsValue, count: JsValue,
                    numToStr: real -> string): seq<string>
  {
    ["Name:\t" + TemplateStr(name, numToStr),
     "Date:\t" + TemplateStr(date, numToStr),
     "Description:\t" + TemplateStr(description, numToStr),
     "N° tests:\t" + TemplateStr(count, numToStr),
     ""]
  }

  /** The lines of the CSV text: metadata, header, one row per element. */
  function Lines(elems: seq<Elem>, name: JsValue, date: JsValue, description: JsValue, count: JsValue,
                 numToStr: real -> string): seq<string>
    requires forall i :: 0 <= i < |elems| ==> !elems[i].Nullish?
  {
    Metadata(name, date, description, count, numToStr) + [Join(HEADERS, TAB)] + Rows(elems, numToStr)
  }

  /** JsonToCsv.convert. */
  function Convert(json: Input, name: JsValue, date: JsValue, description: JsValue, count: JsValue,
                   numToStr: real -> string): (r: Outcome)
    ensures r == Throws(NotNonEmptyArray) <==> json.NotArray? || json.elems == []
    ensures r == Throws(TypeError) <==>
      json.Array? && json.elems != [] && exists i :: 0 <= i < |json.elems| && json.elems[i].Nullish?
  {
    if json.NotArray? || json.elems == [] then Throws(NotNonEmptyArray)
    else if exists i :: 0 <= i < |json.elems| && json.elems[i].Nullish? then Throws(TypeError)
    else Ok(Join(Lines(json.elems, name, date, description, count, numToStr), NL))
  }

  // ---------------------------------------------------------------- properties

  /** A string with no "." is left as it is. */
  lemma {:induction false} ReplaceFirstAbsent(s: string, from: char, to: char)
    requires from !in s
    ensures ReplaceFirst(s, from, to) == s
  {
    if s != [] {
      ReplaceFirstAbsent(s[1..], from, to);
      assert s == [s[0]] + s[1..];
    }
  }

  /** Only the first "." changes, into ","; what comes before and after it is kept. */
  lemma {:induction false} ReplaceFirstAt(s: string, from: char, to: char, k: nat)
    requires k < |s| && s[k] == from && from !in s[..k]
    ensures ReplaceFirst(s, from, to) == s[..k] + [to] + s[k + 1..]
  {
    if k > 0 {
      assert s[0] == s[..k][0];
      assert s[1..][..k - 1] == s[1..k];
      assert s[..k] == [s[0]] + s[1..k];
      ReplaceFirstAt(s[1..], from, to, k - 1);
      assert s[1..][k - 1 + 1..] == s[k + 1..];
    }
  }

  /** Removes the doubling: each pair of quotes back to one. */
  function UndoubleQuotes(s: string): string
    decreases |s|
  {
    if s == [] then []
    else if |s| >= 2 && s[0] == '"' && s[1] == '"' then "\"" + UndoubleQuotes(s[2..])
    else [s[0]] + UndoubleQuotes(s[1..])
  }

  /** Reads an escaped field back: strips the outer quotes of a quoted one. */
  function Unescape(f: string): string {
    if |f| >= 2 && f[0] == '"' && f[|f| - 1] == '"' then UndoubleQuotes(f[1..|f| - 1]) else f
  }

  lemma {:induction false} UndoubleDouble(s: string)
    ensures UndoubleQuotes(DoubleQuotes(s)) == s
  {
    if s != [] {
      UndoubleDouble(s[1..]);
      if s[0] == '"' {
        assert DoubleQuotes(s) == "\"\"" + DoubleQuotes(s[1..]);
      } else {
        assert DoubleQuotes(s) == [s[0]] + DoubleQuotes(s[1..]);
      }
    }
  }

  /**
   * A field escaped as the rows do reads back to the original string, when
   * a string without a tab does not itself start and end with a quote.
   */
  lemma EscapeRoundTrip(s: string)
    requires TAB !in s ==> !(|s| >= 2 && s[0] == '"' && s[|s| - 1] == '"')
    ensures Unescape(Escape(s)) == s
  {
    if TAB in s {
      var f := "\"" + DoubleQuotes(s) + "\"";
      assert f[1..|f| - 1] == DoubleQuotes(s);
      UndoubleDouble(s);
    }
  }

  lemma {:induction false} DoubleQuotesKeeps(s: string, c: char)
    requires c != '"'
    ensures c in DoubleQuotes(s) <==> c in s
  {
    if s != [] {
      DoubleQuotesKeeps(s[1..], c);
      assert s == [s[0]] + s[1..];
    }
  }

  /** An escaped field holds a tab or a newline exactly when the string did: no new separators appear. */
  lemma EscapeKeeps(s: string, c: char)
    requires c != '"'
    ensures c in Escape(s) <==> c in s
  {
    DoubleQuotesKeeps(s, c);
  }

  lemma {:induction false} ReplaceFirstKeeps(s: string, c: char)
    requires c != '.' && c != ','
    ensures c in ReplaceFirst(s, '.', ',') <==> c in s
  {
    if s != [] {
      ReplaceFirstKeeps(s[1..], c);
      assert s == [s[0]] + s[1..];
    }
  }

  /** No piece holds the separator. */
  predicate Clean(parts: seq<string>, sep: char) {
    forall i :: 0 <= i < |parts| ==> sep !in parts[i]
  }

  lemma {:induction false} SplitNoSep(a: string, sep: char)
    requires sep !in a
    ensures Split(a, sep) == [a]
    decreases |a|
  {
    if a != [] {
      SplitNoSep(a[1..], sep);
      assert a == [a[0]] + a[1..];
    }
  }

  lemma {:induction false} SplitAfter(a: string, b: string, sep: char)
    requires sep !in a
    ensures Split(a + [sep] + b, sep) == [a] + Split(b, sep)
    decreases |a|
  {
    if a == [] {
      assert ([sep] + b)[1..] == b;
    } else {
      SplitAfter(a[1..], b, sep);
      assert (a + [sep] + b)[1..] == a[1..] + [sep] + b;
      assert a == [a[0]] + a[1..];
    }
  }

  /** Splitting joined text gives back the pieces, when none holds the separator. */
  lemma {:induction false} SplitJoin(parts: seq<string>, sep: char)
    requires parts != [] && Clean(parts, sep)
    ensures Split(Join(parts, sep), sep) == parts
  {
    if |parts| == 1 {
      SplitNoSep(parts[0], sep);
    } else {
      SplitJoin(parts[1..], sep);
      SplitAfter(parts[0], Join(parts[1..], sep), sep);
    }
  }

  /** No number's text holds c. */
  ghost predicate NumClean(numToStr: real -> string, c: char) {
    forall x :: c !in numToStr(x)
  }

  /** A string value does not hold c. */
  predicate TextClean(v: JsValue, c: char) {
    v.Str? ==> c !in v.s
  }

  /** No string property of the element holds c. */
  predicate ElemClean(e: Elem, c: char) {
    e.Obj? ==> forall k :: k in e.props ==> TextClean(e.props[k], c)
  }

  lemma CellClean(v: JsValue, numToStr: real -> string, c: char)
    requires c == NL || c == TAB
    requires NumClean(numToStr, c) && TextClean(v, c)
    ensures c !in Cell(v, numToStr)
  {
    match v
    case Num(x) =>
      ReplaceFirstKeeps(numToStr(x), c);
      EscapeKeeps(ReplaceFirst(numToStr(x), '.', ','), c);
    case Str(s) =>
      EscapeKeeps(s, c);
    case Bool(b) =>
      assert c !in "true" && c !in "false";
    case _ =>
  }

  lemma {:induction false} JoinClean(parts: seq<string>, sep: char, c: char)
    requires c != sep && Clean(parts, c)
    ensures c !in Join(parts, sep)
  {
    if |parts| > 1 {
      JoinClean(parts[1..], sep, c);
    }
  }

  /** The cells of an element, in header order. */
  function Cells(e: Elem, numToStr: real -> string): (cells: seq<string>)
    requires !e.Nullish?
    ensures Row(e, numToStr) == Join(cells, TAB)
    ensures |cells| == |HEADERS|
    ensures forall i :: 0 <= i < |HEADERS| ==> cells[i] == Cell(Prop(e, SHORT_KEYS[i]), numToStr)
  {
    var vs := Renamed(e);
    [Cell(vs[0], numToStr), Cell(vs[1], numToStr), Cell(vs[2], numToStr),
     Cell(vs[3], numToStr), Cell(vs[4], numToStr)]
  }

  lemma CellsClean(e: Elem, numToStr: real -> string, c: char)
    requires !e.Nullish? && (c == NL || c == TAB)
    requires NumClean(numToStr, c) && ElemClean(e, c)
    ensures Clean(Cells(e, numToStr), c)
  {
    var cells := Cells(e, numToStr);
    forall i | 0 <= i < |cells|
      ensures c !in cells[i]
    {
      CellClean(Prop(e, SHORT_KEYS[i]), numToStr, c);
    }
  }

  lemma RowClean(e: Elem, numToStr: real -> string)
    requires !e.Nullish? && NumClean(numToStr, NL) && ElemClean(e, NL)
    ensures NL !in Row(e, numToStr)
  {
    CellsClean(e, numToStr, NL);
    JoinClean(Cells(e, numToStr), TAB, NL);
  }

  lemma TemplateClean(v: JsValue, numToStr: real -> string)
    requires NumClean(numToStr, NL) && TextClean(v, NL)
    ensures NL !in TemplateStr(v, numToStr)
  {
    if v.Bool? {
      assert NL !in "true" && NL !in "false";
    } else if v.Undefined? {
      assert NL !in "undefined";
    } else if v.Null? {
      assert NL !in "null";
    }
  }

  lemma LabelClean(tag: string, v: JsValue, numToStr: real -> string)
    requires NL !in tag && NumClean(numToStr, NL) && TextClean(v, NL)
    ensures NL !in tag + TemplateStr(v, numToStr)
  {
    TemplateClean(v, numToStr);
  }

  lemma MetadataClean(name: JsValue, date: JsValue, description: JsValue, count: JsValue, numToStr: real -> string)
    requires NumClean(numToStr, NL)
    requires TextClean(name, NL) && TextClean(date, NL) && TextClean(description, NL) && TextClean(count, NL)
    ensures Clean(Metadata(name, date, description, count, numToStr), NL)
  {
    assert NL !in "Name:\t" && NL !in "Date:\t" && NL !in "Description:\t" && NL !in "N° tests:\t";
    LabelClean("Name:\t", name, numToStr);
    LabelClean("Date:\t", date, numToStr);
    LabelClean("Description:\t", description, numToStr);
    LabelClean("N° tests:\t", count, numToStr);
  }

  lemma RowsClean(elems: seq<Elem>, numToStr: real -> string)
    requires forall i :: 0 <= i < |elems| ==> !elems[i].Nullish? && ElemClean(elems[i], NL)
    requires NumClean(numToStr, NL)
    ensures Clean(Rows(elems, numToStr), NL)
  {
    var rows := Rows(elems, numToStr);
    forall i | 0 <= i < |rows|
      ensures NL !in rows[i]
    {
      RowClean(elems[i], numToStr);
    }
  }

  lemma HeaderLine()
    ensures Join(HEADERS, TAB) == "distance\tforce\ttime\tmin\tmax"
    ensures NL !in Join(HEADERS, TAB)
  {
    assert HEADERS[1..] == ["force", "time", "min", "max"];
    assert HEADERS[1..][1..] == ["time", "min", "max"];
    assert HEADERS[1..][1..][1..] == ["min", "max"];
    assert HEADERS[1..][1..][1..][1..] == ["max"];
  }

  lemma CleanConcat(a: seq<string>, b: seq<string>, c: char)
    requires Clean(a, c) && Clean(b, c)
    ensures Clean(a + b, c)
  {
    forall i | 0 <= i < |a + b|
      ensures c !in (a + b)[i]
    {
      if i >= |a| {
        assert (a + b)[i] == b[i - |a|];
      }
    }
  }

  /**
   * The layout of a converted result: when no text holds a newline, the CSV
   * splits into exactly 6 + n lines — the four metadata lines with their
   * values verbatim, a blank line, the tab-joined header, then the rows in
   * input order.
   */
  lemma ConvertLayout(elems: seq<Elem>, name: JsValue, date: JsValue, description: JsValue, count: JsValue,
                      numToStr: real -> string)
    requires elems != [] && forall i :: 0 <= i < |elems| ==> !elems[i].Nullish? && ElemClean(elems[i], NL)
    requires NumClean(numToStr, NL)
    requires TextClean(name, NL) && TextClean(date, NL) && TextClean(description, NL) && TextClean(count, NL)
    ensures var r := Convert(Array(elems), name, date, description, count, numToStr);
      && r.Ok?
      && var lines := Split(r.csv, NL);
      && |lines| == 6 + |elems|
      && lines[..5] == Metadata(name, date, description, count, numToStr)
      && lines[5] == "distance\tforce\ttime\tmin\tmax"
      && lines[6..] == Rows(elems, numToStr)
  {
    var m := Metadata(name, date, description, count, numToStr);
    var rows := Rows(elems, numToStr);
    var header := Join(HEADERS, TAB);
    MetadataClean(name, date, description, count, numToStr);
    RowsClean(elems, numToStr);
    HeaderLine();
    CleanConcat(m, [header], NL);
    CleanConcat(m + [header], rows, NL);
    var lines := m + [header] + rows;
    assert lines == Lines(elems, name, date, description, count, numToStr);
    assert Convert(Array(elems), name, date, description, count, numToStr) == Ok(Join(lines, NL));
    SplitJoin(lines, NL);
    assert lines[..5] == m;
    assert lines[6..] == rows;
  }

  /**
   * Reading one row back: when no number's text and no string holds a
   * tab, the row splits on tabs into exactly its five cells, in header order.
   */
  lemma RowFields(e: Elem, numToStr: real -> string)
    requires !e.Nullish? && NumClean(numToStr, TAB) && ElemClean(e, TAB)
    ensures var fields := Split(Row(e, numToStr), TAB);
      |fields| == |HEADERS| && forall i :: 0 <= i < |HEADERS| ==> fields[i] == Cell(Prop(e, SHORT_KEYS[i]), numToStr)
  {
    CellsClean(e, numToStr, TAB);
    SplitJoin(Cells(e, numToStr), TAB);
  }
}
