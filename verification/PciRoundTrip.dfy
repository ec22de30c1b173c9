/** What `parse_pci` makes of the listing of any cards: the entries of those that share a slot with an
    NVIDIA gpu, each with its driver and modules. */
module PciRoundTrip {
  import opened Wrappers
  import opened Text
  import opened Lines
  import opened PciParser

  /** One function of a card, as `lspci` lists it. The title is the header after the address. */
  datatype Card = Card(slot: string, part: char, title: string, driver: Option<string>, modules: seq<string>)

  predicate Slot(slot: string) {
    exists n :: 4 <= n <= 8 && SlotWith(slot, n)
  }

  /** domain:bus:device */
  predicate SlotWith(slot: string, n: nat) {
    && |slot| == n + 6 && AllHex(slot[..n]) && slot[n] == ':' && AllHex(slot[n + 1..n + 3]) && slot[n + 3] == ':'
    && AllHex(slot[n + 4..])
  }

  function AddressOf(c: Card): string {
    c.slot + "." + [c.part]
  }

  function Header(c: Card): string {
    AddressOf(c) + " " + c.title
  }

  const DRIVER := "kernel driver in use:"
  const MODULES := "kernel modules:"

  function DriverRow(driver: string): string {
    "\tKernel driver in use: " + driver
  }

  function Listing(modules: seq<string>): string {
    if modules == [] then "" else if |modules| == 1 then modules[0] else modules[0] + ", " + Listing(modules[1..])
  }

  function ModulesRow(modules: seq<string>): string {
    "\tKernel modules: " + Listing(modules)
  }

  function Rows(c: Card): seq<string> {
    [Header(c)] + (if c.driver.Some? then [DriverRow(c.driver.value)] else [])
    + (if c.modules != [] then [ModulesRow(c.modules)] else [])
  }

  /** A name without white space or commas. */
  predicate Bare(name: string) {
    name != "" && forall k :: 0 <= k < |name| ==> !Space(name[k]) && name[k] != ','
  }

  ghost predicate Plain(c: Card) {
    && Slot(c.slot) && '0' <= c.part <= '7' && Unbroken(c.title)
    && !Says(Header(c), DRIVER) && !Says(Header(c), MODULES)
    && (c.driver.Some? ==> Bare(c.driver.value))
    && forall m :: m in c.modules ==> Bare(m)
  }

  // ----- searching a text of lines -----

  lemma FoldSays(text: string, phrase: string)
    requires |phrase| <= |text|
    ensures Fold(text[..|phrase|]) == phrase <==> SaysAt(text, phrase, 0)
  {
    forall k: nat | k < |phrase| ensures Fold(text[..|phrase|])[k] == LowerChar(text[k]) {
      FoldAt(text[..|phrase|], k);
    }
    if SaysAt(text, phrase, 0) {
      assert Fold(text[..|phrase|]) == phrase;
    }
  }

  lemma {:induction false} AfterNone(text: string, phrase: string)
    requires phrase != "" && !Says(text, phrase)
    ensures After(text, phrase) == None
  {
    if |phrase| <= |text| {
      FoldSays(text, phrase);
      assert !SaysAt(text, phrase, 0);
    }
    if text != "" {
      var rest := text[1..];
      forall i: nat | i + |phrase| <= |rest| ensures !SaysAt(rest, phrase, i) {
        if SaysAt(rest, phrase, i) {
          assert SaysAt(text, phrase, i + 1);
        }
      }
      AfterNone(rest, phrase);
    }
  }

  /** A phrase without line feeds that is not in the first line is searched for in the others. */
  lemma {:induction false} AfterLine(line: string, rest: string, phrase: string)
    requires phrase != "" && '\n' !in phrase && !Says(line, phrase)
    ensures After(line + "\n" + rest, phrase) == After(rest, phrase)
  {
    var text := line + "\n" + rest;
    if |phrase| <= |text| {
      FoldSays(text, phrase);
      NotAcross(line, rest, phrase);
    }
    if line == "" {
      assert text[1..] == rest;
    } else {
      forall i: nat | i + |phrase| <= |line[1..]| ensures !SaysAt(line[1..], phrase, i) {
        if SaysAt(line[1..], phrase, i) {
          assert SaysAt(line, phrase, i + 1);
        }
      }
      AfterLine(line[1..], rest, phrase);
      assert text[1..] == line[1..] + "\n" + rest;
    }
  }

  lemma NotAcross(line: string, rest: string, phrase: string)
    requires '\n' !in phrase && !Says(line, phrase) && |phrase| <= |line + "\n" + rest|
    ensures !SaysAt(line + "\n" + rest, phrase, 0)
  {
    var text := line + "\n" + rest;
    if |phrase| <= |line| {
      assert !SaysAt(line, phrase, 0);
      var k :| 0 <= k < |phrase| && LowerChar(line[0 + k]) != phrase[k];
      assert text[0 + k] == line[k];
    } else {
      assert text[0 + |line|] == '\n' && phrase[|line|] in phrase;
    }
  }

  /** A phrase after one character that cannot start it. */
  lemma AfterStart(text: string, phrase: string)
    requires |phrase| > 0 && |text| > |phrase| && LowerChar(text[0]) != phrase[0] && SaysAt(text, phrase, 1)
    ensures After(text, phrase) == Some(text[1 + |phrase|..])
  {
    FoldSays(text, phrase);
    assert SaysAt(text[1..], phrase, 0);
    FoldSays(text[1..], phrase);
    assert text[1..][|phrase|..] == text[1 + |phrase|..];
  }

  // ----- the rows of a card -----

  lemma DriverRowSays(driver: string, tail: string)
    ensures After(DriverRow(driver) + tail, DRIVER) == Some(" " + driver + tail)
  {
    var text := DriverRow(driver) + tail;
    var start := "\tKernel driver in use:";
    assert text == start + (" " + driver + tail);
    assert |start| == 22 && |DRIVER| == 21;
    forall k | 0 <= k < 21 ensures LowerChar(text[1 + k]) == DRIVER[k] {
      assert text[1 + k] == start[1 + k];
    }
    AfterStart(text, DRIVER);
    assert text[22..] == " " + driver + tail;
  }

  lemma ModulesRowSays(modules: seq<string>)
    ensures After(ModulesRow(modules), MODULES) == Some(" " + Listing(modules))
  {
    var text := ModulesRow(modules);
    var start := "\tKernel modules:";
    assert text == start + (" " + Listing(modules));
    assert |start| == 16 && |MODULES| == 15;
    forall k | 0 <= k < 15 ensures LowerChar(text[1 + k]) == MODULES[k] {
      assert text[1 + k] == start[1 + k];
    }
    AfterStart(text, MODULES);
    assert text[16..] == " " + Listing(modules);
  }

  lemma SpaceStays(c: char)
    ensures LowerChar(c) == ' ' <==> c == ' '
  {
  }

  lemma DriverRowSilent(driver: string)
    requires Bare(driver)
    ensures !Says(DriverRow(driver), MODULES)
  {
    var row, start := DriverRow(driver), "\tKernel driver in use: ";
    assert |start| == 23 && MODULES[0] == 'k' && MODULES[6] == ' ' && MODULES[7] == 'm';
    forall i: nat | i + |MODULES| <= |row| ensures !SaysAt(row, MODULES, i) {
      if i + 6 < 23 {
        assert row[i + 6] == start[i + 6] && row[i + 0] == start[i] && row[8] == start[8];
        DriverStart(i);
        assert row[i + 7] == 'd' || LowerChar(row[i + 0]) != 'k' || LowerChar(row[i + 6]) != ' ';
      } else {
        assert row[i + 6] == driver[i + 6 - 23];
        SpaceStays(row[i + 6]);
      }
    }
  }

  lemma DriverStart(i: nat)
    requires i + 6 < 23
    ensures var start := "\tKernel driver in use: ";
            LowerChar(start[i]) == 'k' && LowerChar(start[i + 6]) == ' ' ==> i == 1
  {
    var start := "\tKernel driver in use: ";
    assert i == 8 ==> start[8] == 'd';
    assert i == 11 ==> start[11] == 'v';
    assert i == 16 ==> start[16] == 'n';
  }

  /** In a listing every space follows a comma. */
  lemma {:induction false} ListingSpaces(modules: seq<string>, k: nat)
    requires (forall m :: m in modules ==> Bare(m)) && k < |Listing(modules)|
    ensures Listing(modules)[k] == ' ' ==> k > 0 && Listing(modules)[k - 1] == ','
    ensures Listing(modules)[k] == ' ' || !Space(Listing(modules)[k])
  {
    var m, all := modules[0], Listing(modules);
    assert Bare(m);
    if |modules| > 1 {
      var rest := Listing(modules[1..]);
      if k >= |m| + 2 {
        ListingSpaces(modules[1..], k - |m| - 2);
        assert all[k] == rest[k - |m| - 2];
        assert k > |m| + 2 ==> all[k - 1] == rest[k - 1 - |m| - 2];
      }
    }
  }

  lemma ModulesRowSilent(modules: seq<string>)
    requires forall m :: m in modules ==> Bare(m)
    ensures !Says(ModulesRow(modules), DRIVER)
  {
    var row, start, list := ModulesRow(modules), "\tKernel modules: ", Listing(modules);
    assert |start| == 17 && DRIVER[5] == 'l' && DRIVER[6] == ' ' && DRIVER[7] == 'd';
    forall i: nat | i + |DRIVER| <= |row| ensures !SaysAt(row, DRIVER, i) {
      if i + 6 < 17 {
        assert row[i + 6] == start[i + 6] && row[i + 5] == start[i + 5] && row[8] == start[8];
        ModulesStart(i);
        assert row[i + 7] == 'm' || LowerChar(row[i + 5]) != 'l' || LowerChar(row[i + 6]) != ' ';
      } else {
        ListingSpaces(modules, i + 6 - 17);
        assert row[i + 6] == list[i + 6 - 17];
        assert i + 6 > 17 ==> row[i + 5] == list[i + 5 - 17];
        SpaceStays(row[i + 6]);
        assert LowerChar(row[i + 5]) != 'l' || LowerChar(row[i + 6]) != ' ';
      }
    }
  }

  lemma ModulesStart(i: nat)
    requires i + 6 < 17
    ensures var start := "\tKernel modules: ";
            LowerChar(start[i + 5]) == 'l' && LowerChar(start[i + 6]) == ' ' ==> i == 1
  {
    var start := "\tKernel modules: ";
    assert i == 10 ==> start[15] == ':';
  }

  // ----- driver and modules -----

  lemma {:induction false} BareFirst(name: string, tail: string)
    requires (forall k :: 0 <= k < |name| ==> !Space(name[k])) && (tail == "" || Space(tail[0]))
    ensures FirstWord(name + tail) == name
  {
    if name != "" {
      BareFirst(name[1..], tail);
      assert (name + tail)[1..] == name[1..] + tail;
    } else {
      assert name + tail == tail;
    }
  }

  lemma DriverFound(driver: string, tail: string)
    requires Bare(driver) && (tail == "" || Space(tail[0]))
    ensures DriverIn(DriverRow(driver) + tail) == Some(driver)
  {
    DriverRowSays(driver, tail);
    var rest := " " + driver + tail;
    assert rest[1..] == driver + tail;
    assert StripLeft(rest) == driver + tail;
    BareFirst(driver, tail);
  }

  lemma {:induction false} BareStrips(name: string)
    requires forall k :: 0 <= k < |name| ==> !Space(name[k])
    ensures Strip(name) == name && Strip(" " + name) == name
  {
    assert (" " + name)[1..] == name;
    assert StripLeft(name) == name && StripRight(name) == name;
    assert StripLeft(" " + name) == StripLeft(name);
  }

  lemma {:induction false} UpToComma(name: string, tail: string, item: string)
    requires ',' !in name
    ensures SplitCommas(name + tail, item) == SplitCommas(tail, item + name)
    decreases name
  {
    if name == "" {
      assert name + tail == tail && item + name == item;
    } else {
      UpToComma(name[1..], tail, item + [name[0]]);
      assert (name + tail)[1..] == name[1..] + tail && item + [name[0]] + name[1..] == item + name;
    }
  }

  lemma CommaSplits(rest: string, item: string)
    ensures SplitCommas(", " + rest, item) == [Strip(item)] + SplitCommas(rest, " ")
  {
    var tail := " " + rest;
    assert (", " + rest)[1..] == tail;
    assert tail[1..] == rest && "" + [tail[0]] == " ";
    assert SplitCommas(tail, "") == SplitCommas(rest, " ");
  }

  lemma ListingStep(name: string, rest: string, lead: string)
    requires Bare(name) && (lead == "" || lead == " ")
    ensures SplitCommas(name + ", " + rest, lead) == [name] + SplitCommas(rest, " ")
  {
    UpToComma(name, ", " + rest, lead);
    assert name + ", " + rest == name + (", " + rest);
    CommaSplits(rest, lead + name);
    LeadStrips(name, lead);
  }

  lemma LeadStrips(name: string, lead: string)
    requires Bare(name) && (lead == "" || lead == " ")
    ensures Strip(lead + name) == name
  {
    BareStrips(name);
    assert "" + name == name;
  }

  /** The listing splits into its modules, with or without a space before the first. */
  lemma {:induction false} ListingSplits(modules: seq<string>, lead: string)
    requires modules != [] && (forall m :: m in modules ==> Bare(m)) && (lead == "" || lead == " ")
    ensures SplitCommas(Listing(modules), lead) == modules
    decreases |modules|
  {
    var m := modules[0];
    assert Bare(m);
    if |modules| == 1 {
      UpToComma(m, "", lead);
      LeadStrips(m, lead);
      assert m + "" == m;
    } else {
      ListingStep(m, Listing(modules[1..]), lead);
      ListingSplits(modules[1..], " ");
    }
  }

  lemma {:induction false} NoLineFeed(s: string)
    requires forall k :: 0 <= k < |s| ==> s[k] != '\n'
    ensures ToLineFeed(s) == s
  {
    if s != "" {
      NoLineFeed(s[1..]);
    }
  }

  lemma ModulesFound(modules: seq<string>)
    requires modules != [] && forall m :: m in modules ==> Bare(m)
    ensures ModulesIn(ModulesRow(modules)) == modules
  {
    ModulesRowSays(modules);
    var list := Listing(modules);
    assert Bare(modules[0]) && list[0] == modules[0][0];
    assert (" " + list)[1..] == list && StripLeft(" " + list) == list;
    forall k: nat | k < |list| ensures list[k] != '\n' {
      ListingSpaces(modules, k);
    }
    NoLineFeed(list);
    ListingSplits(modules, "");
  }

  /** From the rows of a card its driver and its modules are read. */
  lemma CardRead(c: Card)
    requires Plain(c)
    ensures DriverIn(Join(Rows(c))) == c.driver && ModulesIn(Join(Rows(c))) == c.modules
  {
    if c.driver.Some? {
      DriverRowSilent(c.driver.value);
    }
    ModulesRowSilent(c.modules);
    CardDriver(c);
    CardModules(c);
  }

  lemma CardDriver(c: Card)
    requires Plain(c) && !Says(ModulesRow(c.modules), DRIVER)
    ensures DriverIn(Join(Rows(c))) == c.driver
  {
    var rows, header := Rows(c), Header(c);
    if |rows| == 1 {
      AfterNone(header, DRIVER);
    } else {
      assert Join(rows) == header + "\n" + Join(rows[1..]);
      AfterLine(header, Join(rows[1..]), DRIVER);
      if c.driver.None? {
        AfterNone(rows[1], DRIVER);
      } else {
        DriverFirst(c);
      }
    }
  }

  lemma DriverFirst(c: Card)
    requires Plain(c) && c.driver.Some?
    ensures DriverIn(Join(Rows(c)[1..])) == c.driver
  {
    var row := DriverRow(c.driver.value);
    if c.modules == [] {
      assert Rows(c)[1..] == [row] && row + "" == row;
      DriverFound(c.driver.value, "");
    } else {
      var next := ModulesRow(c.modules);
      assert Rows(c)[1..] == [row, next];
      assert Join([row, next]) == row + ("\n" + next);
      DriverFound(c.driver.value, "\n" + next);
    }
  }

  lemma CardModules(c: Card)
    requires Plain(c) && (c.driver.Some? ==> !Says(DriverRow(c.driver.value), MODULES))
    ensures ModulesIn(Join(Rows(c))) == c.modules
  {
    var rows, header := Rows(c), Header(c);
    if |rows| == 1 {
      AfterNone(header, MODULES);
    } else {
      assert Join(rows) == header + "\n" + Join(rows[1..]);
      AfterLine(header, Join(rows[1..]), MODULES);
      if c.driver.None? {
        ModulesFound(c.modules);
      } else if c.modules == [] {
        AfterNone(rows[1], MODULES);
      } else {
        assert Join(rows[1..]) == rows[1] + "\n" + rows[2];
        AfterLine(rows[1], rows[2], MODULES);
        ModulesFound(c.modules);
      }
    }
  }

  // ----- the lines of the listing -----

  function TextOf(lines: seq<string>): string {
    if lines == [] then "" else lines[0] + "\n" + TextOf(lines[1..])
  }

  function RowsOf(cards: seq<Card>): seq<string> {
    if cards == [] then [] else Rows(cards[0]) + RowsOf(cards[1..])
  }

  function Render(cards: seq<Card>): string {
    TextOf(RowsOf(cards))
  }

  lemma {:induction false} TextSplits(lines: seq<string>)
    requires forall line :: line in lines ==> Unbroken(line)
    ensures SplitLines(TextOf(lines)) == lines
  {
    if lines != [] {
      TextSplits(lines[1..]);
      SplitFirst(lines[0], TextOf(lines[1..]));
    }
  }

  lemma BreakIsSpace(c: char)
    ensures Break(c) ==> Space(c) && c != ' '
  {
  }

  lemma AddressCharacters(c: Card, k: nat)
    requires Plain(c) && k < |AddressOf(c)|
    ensures !Space(AddressOf(c)[k]) && (AddressOf(c)[k] == '.' <==> k == |c.slot|)
  {
    var n :| 4 <= n <= 8 && SlotWith(c.slot, n);
    var address, slot := AddressOf(c), c.slot;
    if k < |slot| {
      assert address[k] == slot[k];
      assert k < n ==> slot[..n][k] == slot[k];
      assert n + 1 <= k < n + 3 ==> slot[n + 1..n + 3][k - n - 1] == slot[k];
      assert n + 4 <= k ==> slot[n + 4..][k - n - 4] == slot[k];
      assert Hex(slot[k]) || slot[k] == ':';
      HexIsNoSpace(slot[k]);
    }
  }

  lemma HexIsNoSpace(c: char)
    ensures Hex(c) || c == ':' ==> !Space(c) && c != '.'
  {
  }

  lemma RowsUnbroken(c: Card)
    requires Plain(c)
    ensures forall row :: row in Rows(c) ==> Unbroken(row)
  {
    var header, n := Header(c), |AddressOf(c)|;
    forall k: nat | k < |header| ensures !Break(header[k]) {
      BreakIsSpace(header[k]);
      if k < n {
        AddressCharacters(c, k);
        assert header[k] == AddressOf(c)[k];
      } else if k > n {
        assert header[k] == c.title[k - n - 1];
      }
    }
    if c.driver.Some? {
      DriverRowUnbroken(c.driver.value);
    }
    ModulesRowUnbroken(c.modules);
  }

  lemma DriverRowUnbroken(driver: string)
    requires Bare(driver)
    ensures Unbroken(DriverRow(driver))
  {
    var row, start := DriverRow(driver), "\tKernel driver in use: ";
    assert |start| == 23;
    forall k: nat | k < |row| ensures !Break(row[k]) {
      BreakIsSpace(row[k]);
      if k < 23 {
        assert row[k] == start[k];
      } else {
        assert row[k] == driver[k - 23];
      }
    }
  }

  lemma ModulesRowUnbroken(modules: seq<string>)
    requires forall m :: m in modules ==> Bare(m)
    ensures Unbroken(ModulesRow(modules))
  {
    var row, start := ModulesRow(modules), "\tKernel modules: ";
    assert |start| == 17;
    forall k: nat | k < |row| ensures !Break(row[k]) {
      BreakIsSpace(row[k]);
      if k < 17 {
        assert row[k] == start[k];
      } else {
        ListingSpaces(modules, k - 17);
        assert row[k] == Listing(modules)[k - 17];
      }
    }
  }

  // ----- the blocks of the listing -----

  lemma HeaderIsHeader(c: Card)
    requires Plain(c)
    ensures IsHeader(Header(c))
  {
    var n :| 4 <= n <= 8 && SlotWith(c.slot, n);
    var line, slot := Header(c), c.slot;
    assert line == slot + ("." + [c.part] + " " + c.title);
    assert line[..n] == slot[..n] && line[n + 1..n + 3] == slot[n + 1..n + 3] && line[n + 4..n + 6] == slot[n + 4..];
    assert line[n] == slot[n] && line[n + 3] == slot[n + 3];
    assert line[n + 6] == '.' && line[n + 7] == c.part && line[n + 8] == ' ';
    assert HeaderWith(line, n);
  }

  /** The rows under a header are neither headers nor separators. */
  lemma IndentedIsBody(row: string)
    requires |row| > 1 && row[0] == '\t' && row[1] == 'K'
    ensures !IsHeader(row) && !IsSeparator(row)
  {
    forall n | 4 <= n <= 8 ensures !HeaderWith(row, n) {
      assert |row| > n + 8 ==> row[..n][0] == '\t';
    }
    assert StripLeft(row) == StripLeft(row[1..]) == row[1..];
    StripRightKeeps(row[1..]);
  }

  lemma {:induction false} BodyUpTo(rows: seq<string>, rest: seq<string>)
    requires forall row :: row in rows ==> !IsHeader(row) && !IsSeparator(row)
    requires rest == [] || IsHeader(rest[0])
    ensures Body(rows + rest) == rows && Blocks(rows + rest) == Blocks(rest)
    decreases |rows|
  {
    if rows == [] {
      assert rows + rest == rest;
    } else {
      assert rows[0] in rows && (rows + rest)[1..] == rows[1..] + rest;
      BodyUpTo(rows[1..], rest);
    }
  }

  lemma IndentedRows(c: Card)
    ensures forall row :: row in Rows(c)[1..] ==> !IsHeader(row) && !IsSeparator(row)
  {
    IndentedIsBody(ModulesRow(c.modules));
    if c.driver.Some? {
      IndentedIsBody(DriverRow(c.driver.value));
    }
  }

  lemma HeaderStarts(lines: seq<string>)
    requires lines != [] && IsHeader(lines[0])
    ensures Blocks(lines) == [[lines[0]] + Body(lines[1..])] + Blocks(lines[1..])
  {
  }

  lemma BlockUpTo(lines: seq<string>, rows: seq<string>, rest: seq<string>)
    requires lines != [] && IsHeader(lines[0]) && lines[1..] == rows + rest
    requires forall row :: row in rows ==> !IsHeader(row) && !IsSeparator(row)
    requires rest == [] || IsHeader(rest[0])
    ensures Blocks(lines) == [[lines[0]] + rows] + Blocks(rest)
  {
    BodyUpTo(rows, rest);
    HeaderStarts(lines);
  }

  lemma OneBlock(block: seq<string>, rest: seq<string>)
    requires block != [] && IsHeader(block[0])
    requires forall row :: row in block[1..] ==> !IsHeader(row) && !IsSeparator(row)
    requires rest == [] || IsHeader(rest[0])
    ensures Blocks(block + rest) == [block] + Blocks(rest)
  {
    FirstAndRest(block, rest);
    BlockUpTo(block + rest, block[1..], rest);
  }

  lemma CardBlock(c: Card, rest: seq<string>)
    requires Plain(c) && (rest == [] || IsHeader(rest[0]))
    ensures Blocks(Rows(c) + rest) == [Rows(c)] + Blocks(rest)
  {
    HeaderIsHeader(c);
    IndentedRows(c);
    OneBlock(Rows(c), rest);
  }

  function BlocksOf(cards: seq<Card>): seq<Block> {
    if cards == [] then [] else [Rows(cards[0])] + BlocksOf(cards[1..])
  }

  lemma {:induction false} ListingBlocks(cards: seq<Card>)
    requires forall c :: c in cards ==> Plain(c)
    ensures Blocks(RowsOf(cards)) == BlocksOf(cards)
    ensures forall row :: row in RowsOf(cards) ==> Unbroken(row)
    ensures cards != [] ==> IsHeader(RowsOf(cards)[0])
  {
    if cards != [] {
      ListingBlocks(cards[1..]);
      CardBlock(cards[0], RowsOf(cards[1..]));
      RowsUnbroken(cards[0]);
      HeaderIsHeader(cards[0]);
    }
  }

  // ----- what is listed -----

  ghost predicate IsGpu(c: Card) {
    Says(Header(c), "vga") || Says(Header(c), "3d controller")
  }

  /** "[10de:" and four hexadecimal digits and "]" */
  ghost predicate Tagged(header: string) {
    exists before: string, tag: string, id: string, after: string ::
      header == before + tag + id + "]" + after && Fold(tag) == "[10de:" && |id| == 4 && AllHex(id)
  }

  ghost predicate IsNvidia(c: Card) {
    IsGpu(c) && (Says(Header(c), "nvidia corporation") || Tagged(Header(c)))
  }

  /** Some NVIDIA gpu is in its slot. */
  ghost predicate Beside(c: Card, cards: seq<Card>) {
    exists g :: g in cards && IsNvidia(g) && g.slot == c.slot
  }

  /** The entry of a card, if it has one. */
  ghost function Entry(c: Card, cards: seq<Card>): seq<Device> {
    if Beside(c, cards) && (IsGpu(c) || Says(Header(c), "audio")) then
      [Device(AddressOf(c), if IsGpu(c) then Gpu else Audio, c.driver, c.modules, c.slot)]
    else []
  }

  ghost function Entries(cards: seq<Card>, all: seq<Card>): seq<Device> {
    if cards == [] then [] else Entry(cards[0], all) + Entries(cards[1..], all)
  }

  lemma FiveParts(s: string, k: nat)
    requires k + 11 <= |s|
    ensures s == s[..k] + s[k..k + 6] + s[k + 6..k + 10] + s[k + 10..k + 11] + s[k + 11..]
  {
  }

  lemma TagAt(before: string, tag: string, id: string, after: string)
    requires Fold(tag) == "[10de:" && |id| == 4 && AllHex(id)
    ensures NvidiaId(before + tag + id + "]" + after)
  {
    var header, k := before + tag + id + "]" + after, |before|;
    assert |tag| == 6 && header[k..k + 6] == tag;
    assert header[k + 6..k + 10] == id && header[k + 10] == ']';
    assert NvidiaIdAt(header, k);
  }

  lemma TaggedMeans(header: string)
    ensures NvidiaId(header) <==> Tagged(header)
  {
    if NvidiaId(header) {
      var k :| 0 <= k <= |header| - 11 && NvidiaIdAt(header, k);
      assert header[k + 10..k + 11] == "]";
      FiveParts(header, k);
      var before, tag, id, after := header[..k], header[k..k + 6], header[k + 6..k + 10], header[k + 11..];
      assert header == before + tag + id + "]" + after;
    }
    if before: string, tag: string, id: string, after: string :|
       header == before + tag + id + "]" + after && Fold(tag) == "[10de:" && |id| == 4 && AllHex(id)
    {
      TagAt(before, tag, id, after);
    }
  }

  lemma HeaderRead(c: Card)
    requires Plain(c)
    ensures Address(Header(c)) == AddressOf(c) && Group(Header(c)) == c.slot
    ensures GpuWords(Header(c)) <==> IsGpu(c)
    ensures IsNvidiaGpu(Header(c)) <==> IsNvidia(c)
    ensures Contains(Fold(Header(c)), "audio") <==> Says(Header(c), "audio")
  {
    SaysFolded(Header(c), "vga");
    SaysFolded(Header(c), "3d controller");
    SaysFolded(Header(c), "nvidia corporation");
    SaysFolded(Header(c), "audio");
    TaggedMeans(Header(c));
    AddressRead(c);
  }

  lemma AddressRead(c: Card)
    requires Plain(c)
    ensures Address(Header(c)) == AddressOf(c) && Group(Header(c)) == c.slot
  {
    var address := AddressOf(c);
    forall k: nat | k < |address| ensures !Space(address[k]) {
      AddressCharacters(c, k);
    }
    BareFirst(address, " " + c.title);
    assert Header(c) == address + (" " + c.title);
    LastDot(c.slot, c.part);
  }

  lemma LastDot(slot: string, part: char)
    requires part != '.'
    ensures BeforeLastDot(slot + "." + [part]) == slot
  {
    var all, short := slot + "." + [part], slot + ".";
    assert all[|slot|] == '.' && all[..|all| - 1] == short;
    assert short[|slot|] == '.' && short[..|short| - 1] == slot;
  }

  lemma {:induction false} CardOf(cards: seq<Card>, b: Block) returns (c: Card)
    requires b in BlocksOf(cards)
    ensures c in cards && Rows(c) == b
  {
    if b == Rows(cards[0]) {
      c := cards[0];
    } else {
      c := CardOf(cards[1..], b);
    }
  }

  lemma {:induction false} RowsInBlocks(cards: seq<Card>, c: Card)
    requires c in cards
    ensures Rows(c) in BlocksOf(cards)
  {
    if c != cards[0] {
      RowsInBlocks(cards[1..], c);
    }
  }

  lemma GroupsAre(cards: seq<Card>, c: Card)
    requires (forall d :: d in cards ==> Plain(d)) && Plain(c)
    ensures c.slot in Groups(BlocksOf(cards)) <==> Beside(c, cards)
  {
    if c.slot in Groups(BlocksOf(cards)) {
      var b: Block :| b in BlocksOf(cards) && IsNvidiaGpu(b[0]) && Group(b[0]) == c.slot;
      var g := CardOf(cards, b);
      HeaderRead(g);
    }
    if Beside(c, cards) {
      var g :| g in cards && IsNvidia(g) && g.slot == c.slot;
      RowsInBlocks(cards, g);
      HeaderRead(g);
    }
  }

  lemma {:induction false} EntriesRead(cards: seq<Card>, all: seq<Card>)
    requires (forall c :: c in cards ==> Plain(c)) && forall c :: c in all ==> Plain(c)
    ensures Devices(BlocksOf(cards), Groups(BlocksOf(all))) == Entries(cards, all)
    decreases |cards|
  {
    if cards != [] {
      var c := cards[0];
      EntriesRead(cards[1..], all);
      HeaderRead(c);
      GroupsAre(all, c);
      CardRead(c);
    }
  }

  /** The parser reads from the listing of any cards exactly the entries they should have. */
  lemma PciRoundTrip(cards: seq<Card>)
    requires forall c :: c in cards ==> Plain(c)
    ensures Parsed(Render(cards)).devices == Entries(cards, cards)
  {
    ListingBlocks(cards);
    TextSplits(RowsOf(cards));
    EntriesRead(cards, cards);
  }
}
