/**
 * A reader for comma-separated text after section 2 of RFC 4180, with records
 * separated by a line feed (the separator the member export uses). It is the
 * reference decoder the export is proved against.
 *
 * Rule 6/7: a field that starts with `"` is escaped; inside it `""` stands for
 * one `"` and a lone `"` closes the field. Any other field runs up to the next
 * `,` or line feed and must not contain `"`.
 */
module Rfc4180 {
  import opened Records
  import opened Text

  /** Reads an escaped field after its opening quote: its content and the text after the closing quote. */
  function ParseEscaped(s: string): (r: Option<(string, string)>)
    ensures r.Some? ==> |r.value.1| < |s|
  {
    if s == [] then None
    else if s[0] == '"' then
      if |s| > 1 && s[1] == '"' then
        match ParseEscaped(s[2..])
        case None => None
        case Some((f, rest)) => Some(("\"" + f, rest))
      else Some(("", s[1..]))
    else
      match ParseEscaped(s[1..])
      case None => None
      case Some((f, rest)) => Some(([s[0]] + f, rest))
  }

  /** Reads a non-escaped field: everything up to the next `,` or line feed. */
  function ParseBare(s: string): (r: Option<(string, string)>)
    ensures r.Some? ==> |r.value.1| <= |s|
  {
    if s == [] || s[0] == ',' || s[0] == '\n' then Some(("", s))
    else if s[0] == '"' then None
    else
      match ParseBare(s[1..])
      case None => None
      case Some((f, rest)) => Some(([s[0]] + f, rest))
  }

  function ParseField(s: string): (r: Option<(string, string)>)
    ensures r.Some? ==> |r.value.1| <= |s|
  {
    if s != [] && s[0] == '"' then ParseEscaped(s[1..]) else ParseBare(s)
  }

  /** Reads one record: fields separated by `,`, ended by a line feed or the end of the text. */
  function ParseRecord(s: string): (r: Option<(seq<string>, string)>)
    ensures r.Some? ==> |r.value.1| <= |s|
    decreases |s|
  {
    match ParseField(s)
    case None => None
    case Some((f, rest)) =>
      if rest != [] && rest[0] == ',' then
        match ParseRecord(rest[1..])
        case None => None
        case Some((fs, rest')) => Some(([f] + fs, rest'))
      else if rest == [] || rest[0] == '\n' then Some(([f], rest))
      else None
  }

  /** Reads the whole text as records separated by line feeds. */
  function ParseFile(s: string): (r: Option<seq<seq<string>>>)
    decreases |s|
  {
    match ParseRecord(s)
    case None => None
    case Some((fs, rest)) =>
      if rest == [] then Some([fs])
      else
        match ParseFile(rest[1..])
        case None => None
        case Some(rs) => Some([fs] + rs)
  }

  /** What may follow a field: nothing, the next field's comma, or the record's line feed. */
  predicate AfterField(r: string)
  {
    r == [] || r[0] == ',' || r[0] == '\n'
  }

  predicate AfterRecord(r: string)
  {
    r == [] || r[0] == '\n'
  }

  /** The text `e` is read back as the field `f`, whatever legally follows it. */
  ghost predicate EncodesField(e: string, f: string)
  {
    forall r :: AfterField(r) ==> ParseField(e + r) == Some((f, r))
  }

  /** The text `line` is read back as the record `fs`, whatever legally follows it. */
  ghost predicate EncodesRecord(line: string, fs: seq<string>)
  {
    forall r :: AfterRecord(r) ==> ParseRecord(line + r) == Some((fs, r))
  }

  predicate IsBareText(f: string)
  {
    forall i :: 0 <= i < |f| ==> f[i] != ',' && f[i] != '\n' && f[i] != '"'
  }

  /** A field without commas, line feeds or quotes may be written as it is. */
  lemma {:induction false} BareRoundTrip(f: string, r: string)
    requires IsBareText(f) && AfterField(r)
    ensures ParseBare(f + r) == Some((f, r))
    decreases |f|
  {
    if f == [] {
      assert f + r == r;
    } else {
      assert (f + r)[0] == f[0] && (f + r)[1..] == f[1..] + r;
      BareRoundTrip(f[1..], r);
      assert [f[0]] + f[1..] == f;
    }
  }

  lemma BareEncodes(f: string)
    requires IsBareText(f) && (f == [] || f[0] != '"')
    ensures EncodesField(f, f)
  {
    forall r | AfterField(r)
      ensures ParseField(f + r) == Some((f, r))
    {
      BareRoundTrip(f, r);
    }
  }

  /** Fields joined by commas are read back as the list of those fields. */
  lemma {:induction false} JoinEncodesRecord(es: seq<string>, fs: seq<string>)
    requires |es| == |fs| >= 1
    requires forall i :: 0 <= i < |es| ==> EncodesField(es[i], fs[i])
    ensures EncodesRecord(Join(es, ","), fs)
    decreases |es|
  {
    forall r | AfterRecord(r)
      ensures ParseRecord(Join(es, ",") + r) == Some((fs, r))
    {
      assert EncodesField(es[0], fs[0]);
      if |es| == 1 {
        assert Join(es, ",") == es[0];
        assert ParseField(es[0] + r) == Some((fs[0], r));
        assert fs == [fs[0]];
      } else {
        var tail := Join(es[1..], ",") + r;
        assert Join(es, ",") + r == es[0] + ("," + tail);
        assert AfterField("," + tail);
        assert ParseField(es[0] + ("," + tail)) == Some((fs[0], "," + tail));
        JoinEncodesRecord(es[1..], fs[1..]);
        assert ("," + tail)[1..] == tail;
        assert ParseRecord(tail) == Some((fs[1..], r));
        assert [fs[0]] + fs[1..] == fs;
        assert ParseRecord(es[0] + ("," + tail)) == Some((fs, r));
      }
    }
  }

  /** Records joined by line feeds are read back as the list of those records. */
  lemma {:induction false} JoinEncodesFile(lines: seq<string>, recs: seq<seq<string>>)
    requires |lines| == |recs| >= 1
    requires forall i :: 0 <= i < |lines| ==> EncodesRecord(lines[i], recs[i])
    ensures ParseFile(Join(lines, "\n")) == Some(recs)
    decreases |lines|
  {
    assert EncodesRecord(lines[0], recs[0]);
    if |lines| == 1 {
      assert Join(lines, "\n") == lines[0] + "";
      assert AfterRecord("");
      assert ParseRecord(lines[0] + "") == Some((recs[0], ""));
      assert recs == [recs[0]];
    } else {
      var tail := Join(lines[1..], "\n");
      assert Join(lines, "\n") == lines[0] + ("\n" + tail);
      assert AfterRecord("\n" + tail);
      assert ParseRecord(lines[0] + ("\n" + tail)) == Some((recs[0], "\n" + tail));
      JoinEncodesFile(lines[1..], recs[1..]);
      assert ("\n" + tail)[1..] == tail;
      assert [recs[0]] + recs[1..] == recs;
    }
  }
}
