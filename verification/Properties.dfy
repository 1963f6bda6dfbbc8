/**
 Loading a properties text by the line rules of java.util.Properties.load (Java SE API): line terminators
 \n, \r and \r\n, leading white space, blank lines, comment lines, backslash continuations, and the last
 assignment of a key winning. How one logical line splits into key and element is left to a parameter, so
 what is proved here holds for every such split.
 */
module Properties {

  type Entry = (string, string)

  /** Where the reader stands. */
  datatype Control =
    | AtStart                                   // skipping white space before a new logical line
    | InComment
    | InLine(line: string, escaped: bool)       // escaped: an odd run of backslashes ends the line so far
    | Continued(line: string, afterCR: bool)    // past an escaped terminator, skipping white space

  datatype Reader = Reader(entries: map<string, string>, control: Control)

  predicate IsTerminator(c: char) { c == '\n' || c == '\r' }

  predicate IsSpace(c: char) { c == ' ' || c == '\t' || c == '\U{000C}' }

  function Emit(entries: map<string, string>, line: string, parse: string -> Entry): map<string, string> {
    var (key, element) := parse(line);
    entries[key := element]
  }

  function Read(r: Reader, c: char, parse: string -> Entry): Reader {
    match r.control
    case AtStart =>
      if IsSpace(c) || IsTerminator(c) then r
      else if c == '#' || c == '!' then r.(control := InComment)
      else r.(control := InLine([c], c == '\\'))
    case InComment =>
      if IsTerminator(c) then r.(control := AtStart) else r
    case InLine(line, escaped) =>
      if !IsTerminator(c) then r.(control := InLine(line + [c], c == '\\' && !escaped))
      else if escaped && line != "" then r.(control := Continued(line[..|line| - 1], c == '\r'))
      else Reader(Emit(r.entries, line, parse), AtStart)
    case Continued(line, afterCR) =>
      if afterCR && c == '\n' then r.(control := Continued(line, false))
      else if IsSpace(c) then r.(control := Continued(line, false))
      else if IsTerminator(c) then Reader(Emit(r.entries, line, parse), AtStart)
      else r.(control := InLine(line + [c], c == '\\'))
  }

  function ReadAll(r: Reader, text: string, parse: string -> Entry): Reader {
    if text == "" then r else Read(ReadAll(r, text[..|text| - 1], parse), text[|text| - 1], parse)
  }

  /** End of input: an unfinished line counts, without a dangling backslash. */
  function Finish(r: Reader, parse: string -> Entry): map<string, string> {
    match r.control
    case InLine(line, escaped) => Emit(r.entries, if escaped && line != "" then line[..|line| - 1] else line, parse)
    case Continued(line, _) => Emit(r.entries, line, parse)
    case _ => r.entries
  }

  const Fresh := Reader(map[], AtStart)

  function Load(text: string, parse: string -> Entry): map<string, string> {
    Finish(ReadAll(Fresh, text, parse), parse)
  }

  lemma {:induction false} ReadAllAppend(r: Reader, s: string, t: string, parse: string -> Entry)
    ensures ReadAll(r, s + t, parse) == ReadAll(ReadAll(r, s, parse), t, parse)
  {
    if t == "" {
      assert s + t == s;
    } else {
      ReadAllAppend(r, s, t[..|t| - 1], parse);
      assert (s + t)[..|s + t| - 1] == s + t[..|t| - 1];
    }
  }

  lemma EmitOnBase(base: map<string, string>, entries: map<string, string>, line: string, parse: string -> Entry)
    ensures Emit(base + entries, line, parse) == base + Emit(entries, line, parse)
  {
  }

  lemma ReadOnBase(base: map<string, string>, r: Reader, c: char, parse: string -> Entry)
    ensures var p, q := Read(r, c, parse), Read(r.(entries := base + r.entries), c, parse);
      q.control == p.control && q.entries == base + p.entries
  {
    if r.control.InLine? || r.control.Continued? {
      EmitOnBase(base, r.entries, r.control.line, parse);
    }
  }

  /** Entries read earlier only lie below those read later: they never steer the reader. */
  lemma {:induction false} EntriesAreBase(base: map<string, string>, r: Reader, text: string, parse: string -> Entry)
    ensures var p, q := ReadAll(r, text, parse), ReadAll(r.(entries := base + r.entries), text, parse);
      q.control == p.control && q.entries == base + p.entries
  {
    if text != "" {
      var front := text[..|text| - 1];
      EntriesAreBase(base, r, front, parse);
      ReadOnBase(base, ReadAll(r, front, parse), text[|text| - 1], parse);
    }
  }

  lemma LoadOnto(base: map<string, string>, text: string, parse: string -> Entry)
    ensures Finish(ReadAll(Reader(base, AtStart), text, parse), parse) == base + Load(text, parse)
  {
    EntriesAreBase(base, Fresh, text, parse);
    assert base + map[] == base;
    var r := ReadAll(Fresh, text, parse);
    if r.control.InLine? && r.control.escaped && r.control.line != "" {
      EmitOnBase(base, r.entries, r.control.line[..|r.control.line| - 1], parse);
    } else if r.control.InLine? || r.control.Continued? {
      EmitOnBase(base, r.entries, r.control.line, parse);
    }
  }

  predicate CommentText(text: string) {
    text != "" && text[0] == '#' && forall i :: 0 <= i < |text| ==> !IsTerminator(text[i])
  }

  lemma {:induction false} ReadComment(entries: map<string, string>, text: string, parse: string -> Entry)
    requires CommentText(text)
    ensures ReadAll(Reader(entries, AtStart), text, parse) == Reader(entries, InComment)
  {
    var front := text[..|text| - 1];
    if front == "" {
      assert ReadAll(Reader(entries, AtStart), front, parse) == Reader(entries, AtStart);
    } else {
      ReadComment(entries, front, parse);
    }
  }

  /** A comment line leaves a reader at the start of a line where it was. */
  lemma CommentLineIgnored(entries: map<string, string>, header: string, text: string, parse: string -> Entry)
    requires CommentText(header)
    ensures ReadAll(Reader(entries, AtStart), header + "\n" + text, parse)
      == ReadAll(Reader(entries, AtStart), text, parse)
  {
    var start := Reader(entries, AtStart);
    ReadAllAppend(start, header + "\n", text, parse);
    assert (header + "\n")[..|header|] == header;
    ReadComment(entries, header, parse);
  }

  lemma ReadNewline(r: Reader, text: string, parse: string -> Entry)
    ensures ReadAll(r, text + "\n", parse) == Read(ReadAll(r, text, parse), '\n', parse)
  {
    assert (text + "\n")[..|text|] == text;
  }

  /**
   Two newlines close whatever the text left open: a line without terminator, a dangling backslash, a
   continuation, even a lone carriage return.
   */
  lemma TwoNewlinesClose(text: string, parse: string -> Entry)
    ensures ReadAll(Fresh, text + "\n\n", parse) == Reader(Load(text, parse), AtStart)
  {
    ReadNewline(Fresh, text, parse);
    ReadNewline(Fresh, text + "\n", parse);
    assert text + "\n\n" == text + "\n" + "\n";
  }

  /** One newline after the last section changes nothing that is loaded. */
  lemma TrailingNewline(base: map<string, string>, text: string, parse: string -> Entry)
    ensures Finish(ReadAll(Reader(base, AtStart), text + "\n", parse), parse)
      == Finish(ReadAll(Reader(base, AtStart), text, parse), parse)
  {
    ReadNewline(Reader(base, AtStart), text, parse);
  }
}
