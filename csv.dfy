/**
  Comma-separated values as section 2 of RFC 4180 describes them, with line
  feeds ending the records: the quoting the exports use (a field in double
  quotes, each inner double quote doubled) and a reader of quoted and
  unquoted fields that undoes it.
 */
module Csv {
  import opened Wrappers
  import opened Text

  /** `x.replace(/"/g, '""')`. */
  function Escape(x: string): (r: string)
    ensures |r| >= |x|
  {
    if x == [] then [] else (if x[0] == '"' then "\"\"" else [x[0]]) + Escape(x[1..])
  }

  /** Text without a double quote needs no escaping. */
  lemma {:induction false} EscapeNoQuote(x: string)
    requires '"' !in x
    ensures Escape(x) == x
  {
    if x != [] {
      EscapeNoQuote(x[1..]);
      assert x == [x[0]] + x[1..];
    }
  }

  /** `"${escaped}"`. */
  function Quote(x: string): string {
    "\"" + Escape(x) + "\""
  }

  /** Fields written in quotes, separated by commas. */
  function QuotedFields(fs: seq<string>): string
    requires fs != []
  {
    if |fs| == 1 then Quote(fs[0]) else Quote(fs[0]) + "," + QuotedFields(fs[1..])
  }

  /** One record of quoted fields ended by a line feed. */
  function QuotedRecord(fs: seq<string>): string
    requires fs != []
  {
    QuotedFields(fs) + "\n"
  }

  /** Consecutive records. */
  function Records(fss: seq<seq<string>>): string
    requires forall i :: 0 <= i < |fss| ==> fss[i] != []
  {
    if fss == [] then "" else QuotedRecord(fss[0]) + Records(fss[1..])
  }

  lemma {:induction false} RecordsSnoc(fss: seq<seq<string>>, fs: seq<string>)
    requires forall i :: 0 <= i < |fss| ==> fss[i] != []
    requires fs != []
    ensures Records(fss + [fs]) == Records(fss) + QuotedRecord(fs)
  {
    if fss == [] {
      assert [] + [fs] == [fs];
    } else {
      assert (fss + [fs])[1..] == fss[1..] + [fs];
      RecordsSnoc(fss[1..], fs);
    }
  }

  // ---------------------------------------------------------------------------
  // The reader
  // ---------------------------------------------------------------------------

  /** The rest of a quoted field after its opening quote: the text up to the closing quote, and what follows it. */
  function ReadQuoted(s: string): (r: Option<(string, string)>)
    ensures r.Some? ==> |r.value.1| < |s|
    decreases |s|
  {
    if s == [] then None
    else if s[0] == '"' then
      if |s| > 1 && s[1] == '"' then
        var more := ReadQuoted(s[2..]);
        if more.None? then None else Some(("\"" + more.value.0, more.value.1))
      else Some(("", s[1..]))
    else
      var more := ReadQuoted(s[1..]);
      if more.None? then None else Some(([s[0]] + more.value.0, more.value.1))
  }

  /** An unquoted field: everything up to the next comma or line feed. */
  function ReadUnquoted(s: string): (r: (string, string))
    ensures r.0 + r.1 == s
    ensures ',' !in r.0 && '\n' !in r.0
    ensures r.1 == [] || r.1[0] == ',' || r.1[0] == '\n'
  {
    if s == [] || s[0] == ',' || s[0] == '\n' then ("", s)
    else
      var more := ReadUnquoted(s[1..]);
      assert [s[0]] + more.0 + more.1 == s;
      ([s[0]] + more.0, more.1)
  }

  function ReadField(s: string): (r: Option<(string, string)>)
    ensures r.Some? ==> |r.value.1| <= |s|
  {
    if s != [] && s[0] == '"' then ReadQuoted(s[1..]) else Some(ReadUnquoted(s))
  }

  /** The fields of one record, and the text after its line feed. */
  function ReadFields(s: string): (r: Option<(seq<string>, string)>)
    ensures r.Some? ==> r.value.0 != [] && (|r.value.1| < |s| || (s == [] && r.value.1 == []))
    decreases |s|
  {
    var f := ReadField(s);
    if f.None? then None
    else
      var (field, rest) := f.value;
      if rest == [] then Some(([field], []))
      else if rest[0] == '\n' then Some(([field], rest[1..]))
      else if rest[0] == ',' then
        var more := ReadFields(rest[1..]);
        if more.None? then None else Some(([field] + more.value.0, more.value.1))
      else None
  }

  /** All the records of a text; `None` when a quoted field is not closed or is followed by stray text. */
  function ReadRecords(s: string): Option<seq<seq<string>>>
    decreases |s|
  {
    if s == [] then Some([])
    else
      var r := ReadFields(s);
      if r.None? then None
      else
        var more := ReadRecords(r.value.1);
        if more.None? then None else Some([r.value.0] + more.value)
  }

  // ---------------------------------------------------------------------------
  // Reading back what was written
  // ---------------------------------------------------------------------------

  /** The reader stops at the closing quote, unescaping the doubled quotes before it. */
  lemma {:induction false} ReadEscaped(x: string, rest: string)
    requires rest == [] || rest[0] != '"'
    ensures ReadQuoted(Escape(x) + "\"" + rest) == Some((x, rest))
  {
    if x == [] {
      assert Escape(x) + "\"" + rest == "\"" + rest;
    } else {
      var tail := Escape(x[1..]) + "\"" + rest;
      if x[0] == '"' {
        calc {
          ReadQuoted(Escape(x) + "\"" + rest);
          { assert Escape(x) + "\"" + rest == "\"\"" + tail; }
          ReadQuoted("\"\"" + tail);
          { ReadDoubled(tail); ReadEscaped(x[1..], rest); }
          Some(("\"" + x[1..], rest));
          { assert "\"" + x[1..] == x; }
          Some((x, rest));
        }
      } else {
        calc {
          ReadQuoted(Escape(x) + "\"" + rest);
          { assert Escape(x) + "\"" + rest == [x[0]] + tail; }
          ReadQuoted([x[0]] + tail);
          { ReadOrdinary(x[0], tail); ReadEscaped(x[1..], rest); }
          Some(([x[0]] + x[1..], rest));
          { assert [x[0]] + x[1..] == x; }
          Some((x, rest));
        }
      }
    }
  }

  lemma ReadDoubled(t: string)
    ensures ReadQuoted("\"\"" + t) ==
      (if ReadQuoted(t).None? then None else Some(("\"" + ReadQuoted(t).value.0, ReadQuoted(t).value.1)))
  {
    assert ("\"\"" + t)[2..] == t;
  }

  lemma ReadOrdinary(c: char, t: string)
    requires c != '"'
    ensures ReadQuoted([c] + t) ==
      (if ReadQuoted(t).None? then None else Some(([c] + ReadQuoted(t).value.0, ReadQuoted(t).value.1)))
  {
    assert ([c] + t)[1..] == t;
  }

  /** A quoted field reads back as the original text. */
  lemma ReadQuotedField(x: string, rest: string)
    requires rest == [] || rest[0] != '"'
    ensures ReadField(Quote(x) + rest) == Some((x, rest))
  {
    var s := Quote(x) + rest;
    assert s[0] == '"' && s[1..] == Escape(x) + "\"" + rest;
    ReadEscaped(x, rest);
  }

  /** A record of quoted fields reads back as its fields, whatever the fields hold. */
  lemma {:induction false} ReadQuotedRecord(fs: seq<string>, rest: string)
    requires fs != []
    ensures ReadFields(QuotedRecord(fs) + rest) == Some((fs, rest))
  {
    var s := QuotedRecord(fs) + rest;
    if |fs| == 1 {
      assert s == Quote(fs[0]) + ("\n" + rest);
      ReadQuotedField(fs[0], "\n" + rest);
      assert ("\n" + rest)[1..] == rest;
      assert [fs[0]] == fs;
    } else {
      var after := QuotedRecord(fs[1..]) + rest;
      assert s == Quote(fs[0]) + ("," + after);
      ReadQuotedField(fs[0], "," + after);
      assert ("," + after)[1..] == after;
      ReadQuotedRecord(fs[1..], rest);
      assert [fs[0]] + fs[1..] == fs;
    }
  }

  /** Records of quoted fields read back as their fields, one record per line written. */
  lemma {:induction false} ReadQuotedRecords(fss: seq<seq<string>>)
    requires forall i :: 0 <= i < |fss| ==> fss[i] != []
    ensures ReadRecords(Records(fss)) == Some(fss)
  {
    if fss != [] {
      ReadQuotedRecord(fss[0], Records(fss[1..]));
      ReadQuotedRecords(fss[1..]);
      assert [fss[0]] + fss[1..] == fss;
    }
  }

  /** Text that is safe to write without quotes. */
  predicate PlainField(x: string) {
    ',' !in x && '\n' !in x && '"' !in x
  }

  /** A header written without quotes. */
  function PlainRecord(fs: seq<string>): string {
    Join(fs, ",") + "\n"
  }

  lemma ReadPlainField(x: string, rest: string)
    requires PlainField(x)
    requires rest == [] || rest[0] == ',' || rest[0] == '\n'
    ensures ReadField(x + rest) == Some((x, rest))
  {
    ReadUnquotedOf(x, rest);
    if x != [] {
      assert (x + rest)[0] == x[0];
    } else {
      assert x + rest == rest;
    }
  }

  lemma {:induction false} ReadUnquotedOf(x: string, rest: string)
    requires ',' !in x && '\n' !in x
    requires rest == [] || rest[0] == ',' || rest[0] == '\n'
    ensures ReadUnquoted(x + rest) == (x, rest)
  {
    if x == [] {
      assert x + rest == rest;
    } else {
      assert (x + rest)[0] == x[0] && (x + rest)[1..] == x[1..] + rest;
      ReadUnquotedOf(x[1..], rest);
      assert [x[0]] + x[1..] == x;
    }
  }

  /** A header of plain fields reads back as its fields. */
  lemma {:induction false} ReadPlainRecord(fs: seq<string>, rest: string)
    requires fs != []
    requires forall i :: 0 <= i < |fs| ==> PlainField(fs[i])
    ensures ReadFields(PlainRecord(fs) + rest) == Some((fs, rest))
  {
    var s := PlainRecord(fs) + rest;
    if |fs| == 1 {
      assert s == fs[0] + ("\n" + rest);
      ReadPlainField(fs[0], "\n" + rest);
      assert ("\n" + rest)[1..] == rest;
      assert [fs[0]] == fs;
    } else {
      var after := PlainRecord(fs[1..]) + rest;
      assert Join(fs, ",") == fs[0] + "," + Join(fs[1..], ",");
      assert s == fs[0] + ("," + after);
      ReadPlainField(fs[0], "," + after);
      assert ("," + after)[1..] == after;
      ReadPlainRecord(fs[1..], rest);
      assert [fs[0]] + fs[1..] == fs;
    }
  }

  /** A plain header followed by quoted records reads back as the header and then each record. */
  lemma ReadTable(header: seq<string>, fss: seq<seq<string>>)
    requires header != [] && forall i :: 0 <= i < |header| ==> PlainField(header[i])
    requires forall i :: 0 <= i < |fss| ==> fss[i] != []
    ensures ReadRecords(PlainRecord(header) + Records(fss)) == Some([header] + fss)
  {
    ReadPlainRecord(header, Records(fss));
    ReadQuotedRecords(fss);
  }
}
