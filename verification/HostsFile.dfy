/** The editor of the managed block in /etc/hosts, as transformations of its text. */
module HostsFile {
  import opened Wrappers
  import opened Text

  const BEGIN_MARKER := "# >>> pmox-proxy (managed) >>>"
  const END_MARKER := "# <<< pmox-proxy (managed) <<<"

  datatype Kind = Begin | End | Plain

  /** What a line is to the editor, white space around it aside. */
  function KindOf(line: string): Kind {
    if TrimSpace(line) == BEGIN_MARKER then Begin
    else if TrimSpace(line) == END_MARKER then End
    else Plain
  }

  // ----- on lines -----

  /** The lines outside the block; inBlock says whether a block is open at the start. */
  function Kept(kind: string -> Kind, lines: seq<string>, inBlock: bool): seq<string> {
    if lines == [] then []
    else
      match kind(lines[0])
      case Begin => Kept(kind, lines[1..], true)
      case End => Kept(kind, lines[1..], false)
      case Plain => (if inBlock then [] else [lines[0]]) + Kept(kind, lines[1..], inBlock)
  }

  /** The lines of the block, up to the first end marker. */
  function Taken(kind: string -> Kind, lines: seq<string>, inBlock: bool): seq<string> {
    if lines == [] then []
    else
      match kind(lines[0])
      case Begin => [lines[0]] + Taken(kind, lines[1..], true)
      case End => [lines[0]]
      case Plain => (if inBlock then [lines[0]] else []) + Taken(kind, lines[1..], inBlock)
  }

  function HostLine(ip: string, name: string): string {
    ip + " " + name
  }

  function HostLines(ip: string, names: seq<string>): (r: seq<string>)
    ensures |r| == |names|
    ensures forall i | 0 <= i < |names| :: r[i] == HostLine(ip, names[i])
  {
    if names == [] then [] else [HostLine(ip, names[0])] + HostLines(ip, names[1..])
  }

  function BlockLines(ip: string, names: seq<string>): seq<string> {
    [BEGIN_MARKER] + HostLines(ip, names) + [END_MARKER]
  }

  // ----- on texts -----

  function StripBlock(content: string): string {
    Join(Kept(KindOf, Split(content), false))
  }

  function ManagedBlock(ip: string, names: seq<string>): string {
    Join(BlockLines(ip, names)) + "\n"
  }

  function ExtractBlock(content: string): string {
    Join(Taken(KindOf, Split(content), false))
  }

  function Disabled(content: string): string {
    TrimNewlines(StripBlock(content)) + "\n"
  }

  function Enabled(content: string, ip: string, names: seq<string>): string {
    Disabled(content) + ManagedBlock(ip, names)
  }

  predicate Present(content: string) {
    ExtractBlock(content) != ""
  }

  predicate IsHostEntry(line: string) {
    |Fields(line)| >= 2 && !("#" <= Fields(line)[0])
  }

  function FirstAddress(lines: seq<string>): string {
    if lines == [] then ""
    else if IsHostEntry(lines[0]) then Fields(lines[0])[0]
    else FirstAddress(lines[1..])
  }

  function RedirectIP(content: string): string {
    if Present(content) then FirstAddress(Split(ExtractBlock(content))) else ""
  }

  // ----- the loops and the file -----

  method KeepLines(kind: string -> Kind, lines: seq<string>) returns (out: seq<string>)
    ensures out == Kept(kind, lines, false)
  {
    out := [];
    var inBlock := false;
    for i := 0 to |lines|
      invariant out + Kept(kind, lines[i..], inBlock) == Kept(kind, lines, false)
    {
      assert lines[i..][1..] == lines[i + 1..];
      match kind(lines[i]) {
        case Begin => inBlock := true;
        case End => inBlock := false;
        case Plain =>
          if !inBlock {
            out := out + [lines[i]];
          }
      }
    }
    assert lines[|lines|..] == [] && out + [] == out;
  }

  method TakeLines(kind: string -> Kind, lines: seq<string>) returns (out: seq<string>)
    ensures out == Taken(kind, lines, false)
  {
    out := [];
    var inBlock := false;
    for i := 0 to |lines|
      invariant out + Taken(kind, lines[i..], inBlock) == Taken(kind, lines, false)
    {
      match kind(lines[i]) {
        case Begin =>
          inBlock := true;
          out := out + [lines[i]];
        case End =>
          out := out + [lines[i]];
          return;
        case Plain =>
          if inBlock {
            out := out + [lines[i]];
          } else {
            assert [] + Taken(kind, lines[i + 1..], false) == Taken(kind, lines[i + 1..], false);
          }
      }
    }
    assert lines[|lines|..] == [] && out + [] == out;
  }

  method StripBlockLoop(content: string) returns (r: string)
    ensures r == StripBlock(content)
  {
    var out := KeepLines(KindOf, Split(content));
    return Join(out);
  }

  method ExtractBlockLoop(content: string) returns (r: string)
    ensures r == ExtractBlock(content)
  {
    var out := TakeLines(KindOf, Split(content));
    if out == [] {
      return "";
    }
    return Join(out);
  }

  method ManagedBlockLoop(ip: string, names: seq<string>) returns (b: string)
    ensures b == ManagedBlock(ip, names)
  {
    b := BEGIN_MARKER + "\n";
    for i := 0 to |names|
      invariant b == Join([BEGIN_MARKER] + HostLines(ip, names[..i])) + "\n"
    {
      HostLinesSnoc(ip, names[..i], names[i]);
      assert names[..i + 1] == names[..i] + [names[i]];
      JoinSnoc([BEGIN_MARKER] + HostLines(ip, names[..i]), HostLine(ip, names[i]));
      assert [BEGIN_MARKER] + (HostLines(ip, names[..i]) + [HostLine(ip, names[i])])
          == [BEGIN_MARKER] + HostLines(ip, names[..i]) + [HostLine(ip, names[i])];
      b := b + ip + " " + names[i] + "\n";
    }
    assert names[..|names|] == names;
    JoinSnoc([BEGIN_MARKER] + HostLines(ip, names), END_MARKER);
    b := b + END_MARKER + "\n";
  }

  datatype EditError = NoIP | NoNames | FileUnreadable | FileUnwritable

  /** The hosts file; content is None when it cannot be read. */
  class File {
    var content: Option<string>

    constructor (content: Option<string>)
      ensures this.content == content
    {
      this.content := content;
    }

    /** write is the success of replacing the file. */
    method Enable(ip: string, names: seq<string>, dryRun: bool, write: bool) returns (r: Result<string, EditError>)
      modifies this
      ensures ip == "" ==> r == Err(NoIP) && content == old(content)
      ensures ip != "" && names == [] ==> r == Err(NoNames) && content == old(content)
      ensures ip != "" && names != [] ==>
        match old(content)
        case None => r == Err(FileUnreadable) && content == None
        case Some(was) =>
          if dryRun then r == Ok(Enabled(was, ip, names)) && content == old(content)
          else if write then r == Ok(ManagedBlock(ip, names)) && content == Some(Enabled(was, ip, names))
          else r == Err(FileUnwritable) && content == old(content)
    {
      if ip == "" { return Err(NoIP); }
      if names == [] { return Err(NoNames); }
      if content.None? { return Err(FileUnreadable); }
      var stripped := StripBlockLoop(content.value);
      stripped := TrimNewlines(stripped) + "\n";
      var block := ManagedBlockLoop(ip, names);
      var result := stripped + block;
      if dryRun { return Ok(result); }
      if !write { return Err(FileUnwritable); }
      content := Some(result);
      return Ok(block);
    }

    method Disable(dryRun: bool, write: bool) returns (r: Result<string, EditError>)
      modifies this
      ensures match old(content)
        case None => r == Err(FileUnreadable) && content == None
        case Some(was) =>
          if dryRun then r == Ok(Disabled(was)) && content == old(content)
          else if write then r == Ok("") && content == Some(Disabled(was))
          else r == Err(FileUnwritable) && content == old(content)
    {
      if content.None? { return Err(FileUnreadable); }
      var stripped := StripBlockLoop(content.value);
      var result := TrimNewlines(stripped) + "\n";
      if dryRun { return Ok(result); }
      if !write { return Err(FileUnwritable); }
      content := Some(result);
      return Ok("");
    }

    method Status() returns (r: Result<(bool, string), EditError>)
      ensures r == match content
        case None => Err(FileUnreadable)
        case Some(text) => Ok((Present(text), ExtractBlock(text)))
    {
      if content.None? { return Err(FileUnreadable); }
      var block := ExtractBlockLoop(content.value);
      return Ok((block != "", block));
    }

    method Redirect() returns (r: Result<string, EditError>)
      ensures r == match content
        case None => Err(FileUnreadable)
        case Some(text) => Ok(RedirectIP(text))
    {
      var status := Status();
      if status.Err? { return Err(status.error); }
      if !status.value.0 { return Ok(""); }
      var lines := Split(status.value.1);
      for i := 0 to |lines|
        invariant FirstAddress(lines) == FirstAddress(lines[i..])
      {
        assert lines[i..][1..] == lines[i + 1..];
        var fields := Fields(lines[i]);
        if |fields| >= 2 && !("#" <= fields[0]) {
          return Ok(fields[0]);
        }
      }
      return Ok("");
    }
  }

  lemma {:induction false} HostLinesSnoc(ip: string, names: seq<string>, n: string)
    ensures HostLines(ip, names + [n]) == HostLines(ip, names) + [HostLine(ip, n)]
  {
  }

  lemma JoinSnoc(lines: seq<string>, line: string)
    requires lines != []
    ensures Join(lines + [line]) == Join(lines) + "\n" + line
  {
    JoinConcat(lines, [line]);
  }

  // ----- lines that are no markers -----

  ghost predicate MarkerFree(kind: string -> Kind, lines: seq<string>) {
    forall i | 0 <= i < |lines| :: kind(lines[i]) == Plain
  }

  ghost predicate AllLines(lines: seq<string>) {
    forall i | 0 <= i < |lines| :: OneLine(lines[i])
  }

  lemma {:induction false} KeptOfMarkerFree(kind: string -> Kind, lines: seq<string>, rest: seq<string>)
    requires MarkerFree(kind, lines)
    ensures Kept(kind, lines + rest, false) == lines + Kept(kind, rest, false)
    ensures Taken(kind, lines + rest, false) == Taken(kind, rest, false)
  {
    if lines == [] {
      assert lines + rest == rest;
    } else {
      assert (lines + rest)[1..] == lines[1..] + rest;
      KeptOfMarkerFree(kind, lines[1..], rest);
    }
  }

  lemma {:induction false} KeptIsMarkerFree(kind: string -> Kind, lines: seq<string>, inBlock: bool)
    requires AllLines(lines)
    ensures MarkerFree(kind, Kept(kind, lines, inBlock)) && AllLines(Kept(kind, lines, inBlock))
  {
    if lines != [] {
      var next := match kind(lines[0]) case Begin => true case End => false case Plain => inBlock;
      KeptIsMarkerFree(kind, lines[1..], next);
    }
  }

  lemma {:induction false} KeptInsideBlock(kind: string -> Kind, lines: seq<string>, last: string, rest: seq<string>)
    requires forall i | 0 <= i < |lines| :: kind(lines[i]) != End
    requires kind(last) == End
    ensures Kept(kind, lines + [last] + rest, true) == Kept(kind, rest, false)
    ensures Taken(kind, lines + [last] + rest, true) == lines + [last]
  {
    var all := lines + [last] + rest;
    if lines == [] {
      assert all[0] == last && all[1..] == rest;
    } else {
      assert all[1..] == lines[1..] + [last] + rest;
      KeptInsideBlock(kind, lines[1..], last, rest);
      assert lines + [last] == [lines[0]] + (lines[1..] + [last]);
    }
  }

  /** A block whose inner lines do not close it is dropped whole and read back whole. */
  lemma BlockIsStripped(kind: string -> Kind, first: string, lines: seq<string>, last: string, rest: seq<string>)
    requires forall i | 0 <= i < |lines| :: kind(lines[i]) != End
    requires kind(first) == Begin && kind(last) == End
    ensures Kept(kind, [first] + lines + [last] + rest, false) == Kept(kind, rest, false)
    ensures Taken(kind, [first] + lines + [last] + rest, false) == [first] + lines + [last]
  {
    var all := [first] + lines + [last] + rest;
    assert all[1..] == lines + [last] + rest;
    KeptInsideBlock(kind, lines, last, rest);
    assert [first] + (lines + [last]) == [first] + lines + [last];
  }

  lemma MarkerKinds()
    ensures KindOf(BEGIN_MARKER) == Begin && KindOf(END_MARKER) == End && KindOf("") == Plain
    ensures OneLine(BEGIN_MARKER) && OneLine(END_MARKER)
  {
    TrimSpaceOfTrimmed(BEGIN_MARKER);
    TrimSpaceOfTrimmed(END_MARKER);
    assert TrimSpace("") == "";
    assert BEGIN_MARKER[2] == '>' && END_MARKER[2] == '<';
  }

  // ----- the shape of edited files -----

  /** The text the editor keeps of a file: no trailing newline, no marker line. */
  function Core(content: string): string {
    TrimNewlines(StripBlock(content))
  }

  lemma {:induction false} TrimmedLinesArePrefix(s: string)
    ensures Split(TrimNewlines(s)) <= Split(s)
  {
    if s != "" && s[|s| - 1] == '\n' {
      var t := s[..|s| - 1];
      TrimmedLinesArePrefix(t);
      assert s == t + "\n" + "";
      SplitConcat(t, "");
    }
  }

  lemma StrippedLines(content: string)
    ensures MarkerFree(KindOf, Split(StripBlock(content)))
  {
    var kept := Kept(KindOf, Split(content), false);
    SplitLinesAreLines(content);
    KeptIsMarkerFree(KindOf, Split(content), false);
    if kept == [] {
      MarkerKinds();
      assert Split("") == [""];
    } else {
      SplitJoin(kept);
    }
  }

  lemma CoreLines(content: string)
    ensures MarkerFree(KindOf, Split(Core(content)))
    ensures TrimNewlines(Core(content)) == Core(content)
  {
    StrippedLines(content);
    TrimmedLinesArePrefix(StripBlock(content));
    forall i | 0 <= i < |Split(Core(content))| ensures KindOf(Split(Core(content))[i]) == Plain {
      assert Split(Core(content))[i] == Split(StripBlock(content))[i];
    }
  }

  /** The text of a file whose kept lines are those of a core and an empty one. */
  lemma CoreFromKept(content: string, core: string)
    requires Kept(KindOf, Split(content), false) == Split(core) + [""]
    requires TrimNewlines(core) == core
    ensures Core(content) == core
  {
    JoinConcat(Split(core), [""]);
    JoinSplit(core);
    assert core + "\n" + "" == core + "\n";
  }

  lemma CoreOfDisabled(content: string)
    ensures Core(Disabled(content)) == Core(content)
  {
    var core := Core(content);
    CoreLines(content);
    SplitConcat(core, "");
    assert core + "\n" + "" == Disabled(content);
    KeptOfMarkerFree(KindOf, Split(core), [""]);
    CoreFromKept(Disabled(content), core);
  }

  /** The host lines of a block cannot close it, and stay on one line each. */
  predicate SafeEntries(ip: string, names: seq<string>) {
    forall i | 0 <= i < |names| :: OneLine(HostLine(ip, names[i])) && KindOf(HostLine(ip, names[i])) != End
  }

  lemma BlockLinesSplit(ip: string, names: seq<string>)
    requires SafeEntries(ip, names)
    ensures Split(Join(BlockLines(ip, names))) == BlockLines(ip, names)
  {
    MarkerKinds();
    SplitJoin(BlockLines(ip, names));
  }

  lemma LinesOfEnabled(content: string, ip: string, names: seq<string>)
    requires SafeEntries(ip, names)
    ensures Split(Enabled(content, ip, names)) == Split(Core(content)) + (BlockLines(ip, names) + [""])
  {
    var block := BlockLines(ip, names);
    BlockLinesSplit(ip, names);
    SplitConcat(Join(block), "");
    assert Join(block) + "\n" + "" == ManagedBlock(ip, names);
    assert Split("") == [""];
    SplitConcat(Core(content), ManagedBlock(ip, names));
  }

  lemma KeptAndTakenOfEnabled(content: string, ip: string, names: seq<string>)
    requires SafeEntries(ip, names)
    ensures Kept(KindOf, Split(Enabled(content, ip, names)), false) == Split(Core(content)) + [""]
    ensures Taken(KindOf, Split(Enabled(content, ip, names)), false) == BlockLines(ip, names)
  {
    CoreLines(content);
    LinesOfEnabled(content, ip, names);
    KeptOfMarkerFree(KindOf, Split(Core(content)), BlockLines(ip, names) + [""]);
    MarkerKinds();
    BlockIsStripped(KindOf, BEGIN_MARKER, HostLines(ip, names), END_MARKER, [""]);
  }

  lemma CoreOfEnabled(content: string, ip: string, names: seq<string>)
    requires SafeEntries(ip, names)
    ensures Core(Enabled(content, ip, names)) == Core(content)
  {
    KeptAndTakenOfEnabled(content, ip, names);
    CoreLines(content);
    CoreFromKept(Enabled(content, ip, names), Core(content));
  }

  // ----- the algebra of the editor -----

  /** Enabling after enabling is enabling once, with the last address and names. */
  lemma EnableAfterEnable(content: string, ip: string, names: seq<string>, ip': string, names': seq<string>)
    requires SafeEntries(ip, names)
    ensures Enabled(Enabled(content, ip, names), ip', names') == Enabled(content, ip', names')
  {
    CoreOfEnabled(content, ip, names);
  }

  /** Disabling after enabling is disabling the original. */
  lemma DisableAfterEnable(content: string, ip: string, names: seq<string>)
    requires SafeEntries(ip, names)
    ensures Disabled(Enabled(content, ip, names)) == Disabled(content)
  {
    CoreOfEnabled(content, ip, names);
  }

  /** Disabling first changes nothing for a later edit, and disabling twice is
      disabling once. */
  lemma EditAfterDisable(content: string, ip: string, names: seq<string>)
    ensures Enabled(Disabled(content), ip, names) == Enabled(content, ip, names)
    ensures Disabled(Disabled(content)) == Disabled(content)
  {
    CoreOfDisabled(content);
  }

  /** A file without marker lines comes back, up to trailing newlines. */
  lemma UnmanagedFileComesBack(content: string, ip: string, names: seq<string>)
    requires SafeEntries(ip, names) && MarkerFree(KindOf, Split(content))
    ensures Disabled(Enabled(content, ip, names)) == TrimNewlines(content) + "\n"
  {
    DisableAfterEnable(content, ip, names);
    KeptOfMarkerFree(KindOf, Split(content), []);
    assert Split(content) + [] == Split(content);
    JoinSplit(content);
  }

  // ----- reading the block back -----

  lemma {:induction false} TakenNonEmpty(kind: string -> Kind, lines: seq<string>)
    ensures Taken(kind, lines, false) == [] <==> MarkerFree(kind, lines)
    ensures Taken(kind, lines, false) != [] ==> kind(Taken(kind, lines, false)[0]) != Plain
  {
    if lines != [] {
      TakenNonEmpty(kind, lines[1..]);
      assert forall i | 0 < i < |lines| :: lines[i] == lines[1..][i - 1];
    }
  }

  /** The block is reported present exactly when some line of the file is a marker. */
  lemma PresentMeansMarker(content: string)
    ensures Present(content) <==> !MarkerFree(KindOf, Split(content))
  {
    var taken := Taken(KindOf, Split(content), false);
    TakenNonEmpty(KindOf, Split(content));
    if taken != [] {
      MarkerKinds();
      assert taken[0] != "";
      assert |Join(taken)| >= |taken[0]|;
    }
  }

  /** After disabling, no block is ever reported. */
  lemma DisabledIsAbsent(content: string)
    ensures !Present(Disabled(content)) && RedirectIP(Disabled(content)) == ""
  {
    CoreLines(content);
    SplitConcat(Core(content), "");
    assert Core(content) + "\n" + "" == Disabled(content);
    assert Split("") == [""];
    MarkerKinds();
    PresentMeansMarker(Disabled(content));
  }

  lemma CommentIsNoEntry(s: string)
    requires s != "" && s[0] == '#'
    ensures !IsHostEntry(s)
  {
  }

  lemma HostLineEntry(ip: string, name: string)
    requires ip != "" && NoSpace(ip) && ip[0] != '#'
    ensures IsHostEntry(HostLine(ip, name)) <==> !Blank(name)
    ensures IsHostEntry(HostLine(ip, name)) ==> Fields(HostLine(ip, name))[0] == ip
  {
    FieldsOfPair(ip, name);
  }

  lemma {:induction false} FirstAddressOfHosts(ip: string, names: seq<string>, last: string)
    requires ip != "" && NoSpace(ip) && ip[0] != '#'
    requires !IsHostEntry(last)
    ensures FirstAddress(HostLines(ip, names) + [last]) ==
            if exists i :: 0 <= i < |names| && !Blank(names[i]) then ip else ""
  {
    var lines := HostLines(ip, names) + [last];
    if names == [] {
      assert lines[1..] == [];
    } else {
      HostLineEntry(ip, names[0]);
      FirstAddressOfHosts(ip, names[1..], last);
      assert lines[1..] == HostLines(ip, names[1..]) + [last];
      if i :| 0 <= i < |names| && !Blank(names[i]) && Blank(names[0]) {
        assert names[1..][i - 1] == names[i];
      }
      if i :| 0 <= i < |names[1..]| && !Blank(names[1..][i]) {
        assert names[i + 1] == names[1..][i];
      }
    }
  }

  lemma FirstAddressSkips(first: string, rest: seq<string>)
    requires !IsHostEntry(first)
    ensures FirstAddress([first] + rest) == FirstAddress(rest)
  {
  }

  lemma FirstAddressOfBlock(ip: string, names: seq<string>)
    requires ip != "" && NoSpace(ip) && ip[0] != '#'
    ensures FirstAddress(BlockLines(ip, names)) == if exists i :: 0 <= i < |names| && !Blank(names[i]) then ip else ""
  {
    CommentIsNoEntry(BEGIN_MARKER);
    CommentIsNoEntry(END_MARKER);
    FirstAddressOfHosts(ip, names, END_MARKER);
    FirstAddressSkips(BEGIN_MARKER, HostLines(ip, names) + [END_MARKER]);
    assert BlockLines(ip, names) == [BEGIN_MARKER] + (HostLines(ip, names) + [END_MARKER]);
  }

  /** An entry whose address starts with a plain character never looks like a marker. */
  lemma AddressedEntriesAreSafe(ip: string, names: seq<string>)
    requires ip != "" && NoSpace(ip) && ip[0] != '#'
    requires forall i | 0 <= i < |names| :: OneLine(names[i])
    ensures SafeEntries(ip, names)
  {
    forall i | 0 <= i < |names|
      ensures OneLine(HostLine(ip, names[i])) && KindOf(HostLine(ip, names[i])) != End
    {
      var line := HostLine(ip, names[i]);
      assert line[0] == ip[0];
      TrimRightKeepsStart(line);
    }
  }

  lemma {:induction false} TrimRightKeepsStart(s: string)
    requires s != "" && !IsSpace(s[0])
    ensures TrimRight(s) != "" && TrimRight(s)[0] == s[0]
  {
    if IsSpace(s[|s| - 1]) {
      TrimRightKeepsStart(s[..|s| - 1]);
    }
  }

  /** After enabling, the address read back is the one given, whatever the file held
      before, exactly when some name is not blank. */
  lemma RedirectAfterEnable(content: string, ip: string, names: seq<string>)
    requires ip != "" && NoSpace(ip) && ip[0] != '#'
    requires forall i | 0 <= i < |names| :: OneLine(names[i])
    ensures Present(Enabled(content, ip, names))
    ensures RedirectIP(Enabled(content, ip, names)) ==
            if exists i :: 0 <= i < |names| && !Blank(names[i]) then ip else ""
  {
    AddressedEntriesAreSafe(ip, names);
    KeptAndTakenOfEnabled(content, ip, names);
    BlockLinesSplit(ip, names);
    FirstAddressOfBlock(ip, names);
  }

  /** The enabled file is what is kept of the old one, then the block: between its markers one
      line for each name, which maps the name, or the names in it, to the address. */
  lemma EnabledMapsNames(content: string, ip: string, names: seq<string>) returns (entries: seq<string>)
    requires ip != "" && NoSpace(ip) && ip[0] != '#'
    requires forall i | 0 <= i < |names| :: OneLine(names[i])
    ensures Split(Enabled(content, ip, names)) == Split(Core(content)) + ([BEGIN_MARKER] + entries + [END_MARKER] + [""])
    ensures |entries| == |names|
    ensures forall i | 0 <= i < |names| :: entries[i] == ip + " " + names[i] && Fields(entries[i]) == [ip] + Fields(names[i])
  {
    AddressedEntriesAreSafe(ip, names);
    LinesOfEnabled(content, ip, names);
    entries := HostLines(ip, names);
    forall i | 0 <= i < |names| ensures entries[i] == ip + " " + names[i] && Fields(entries[i]) == [ip] + Fields(names[i]) {
      FieldsOfPair(ip, names[i]);
    }
  }

  /** Markers are recognised with white space around them. */
  lemma IndentedMarkersCount(a: string, b: string)
    requires Blank(a) && Blank(b)
    ensures KindOf(a + BEGIN_MARKER + b) == Begin && KindOf(a + END_MARKER + b) == End
  {
    TrimSpaceStrips(a, BEGIN_MARKER, b);
    TrimSpaceStrips(a, END_MARKER, b);
    assert BEGIN_MARKER[2] == '>' && END_MARKER[2] == '<';
  }
}
