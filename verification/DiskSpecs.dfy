/** Printing a disk spec and parsing it back. */
module DiskSpecs {
  import opened Wrappers
  import opened GoStrings
  import opened Accounting
  import opened Deltas
  import opened Landing

  /** A size as it is written: a whole number and an optional binary suffix. */
  datatype Size = Size(count: nat, suffix: Option<char>)

  predicate Writable(s: Size) {
    s.count <= MAX_INT64 && (s.suffix.Some? ==> HasSuffix(s.suffix.value))
  }

  function PrintSize(s: Size): string {
    PrintNat(s.count) + match s.suffix case Some(c) => [c] case None => ""
  }

  /** Which power of 1024 a suffix stands for. */
  function UnitOf(c: char): nat {
    if c == 'k' || c == 'K' then 1
    else if c == 'm' || c == 'M' then 2
    else if c == 'g' || c == 'G' then 3
    else if c == 't' || c == 'T' then 4
    else 5
  }

  function Power1024(n: nat): nat {
    if n == 0 then 1 else 1024 * Power1024(n - 1)
  }

  function BytesOf(s: Size): nat {
    s.count * Power1024(match s.suffix case Some(c) => UnitOf(c) case None => 0)
  }

  lemma SuffixPower(c: char)
    requires HasSuffix(c)
    ensures SuffixMultiple(c) == Power1024(UnitOf(c))
  {
    assert Power1024(1) == 0x400 && Power1024(2) == 0x10_0000 && Power1024(3) == 0x4000_0000;
    assert Power1024(4) == 0x100_0000_0000 && Power1024(5) == 0x4_0000_0000_0000;
  }

  lemma TrimmedStays(s: string)
    requires Trimmed(s)
    ensures TrimSpace(s) == s
  {}

  lemma DigitChar(c: char)
    requires '0' <= c <= '9'
    ensures !IsSpace(c) && !HasSuffix(c) && SuffixMultiple(c) == 1 && c != ','
  {}

  lemma SuffixChar(c: char)
    requires HasSuffix(c)
    ensures !IsSpace(c) && c != ','
  {}

  /** A printed size has no blanks or commas, and splits into its digits and its suffix. */
  lemma PrintedSize(s: Size)
    requires Writable(s)
    ensures var text, digits := PrintSize(s), PrintNat(s.count);
            && text != "" && Trimmed(text) && ',' !in text && digits != ""
            && (s.suffix.Some? ==> text[|text| - 1] == s.suffix.value && text[..|text| - 1] == digits)
            && (s.suffix.None? ==>
              text == digits && !HasSuffix(text[|text| - 1]) && SuffixMultiple(text[|text| - 1]) == 1)
  {
    var digits := PrintNat(s.count);
    PrintNatValue(s.count);
    forall i | 0 <= i < |digits| ensures !IsSpace(digits[i]) && digits[i] != ',' { DigitChar(digits[i]); }
    if s.suffix.Some? { SuffixChar(s.suffix.value); } else { DigitChar(digits[|digits| - 1]); }
  }

  /** Reading a printed size gives its bytes. */
  lemma ParseSizePrinted(s: Size)
    requires Writable(s)
    ensures ParseSize(PrintSize(s)) == Some(BytesOf(s))
  {
    PrintedSize(s);
    ParsePrint(s.count);
    if s.suffix.Some? { SuffixPower(s.suffix.value); }
    TrimmedStays(PrintSize(s));
  }

  /** An option as it stands in a spec. */
  predicate OptionText(o: string) {
    Trimmed(o) && ',' !in o
  }

  /** An option that says nothing about the size and does not make the drive a CD-ROM. */
  predicate PlainOption(o: string) {
    OptionText(o) && !("size=" <= o) && o != "media=cdrom"
  }

  predicate PlainOptions(opts: seq<string>) {
    forall o <- opts :: PlainOption(o)
  }

  /** Options of a drive that is no CD-ROM, sizes among them. */
  predicate DriveOptions(opts: seq<string>) {
    forall o <- opts :: OptionText(o) && o != "media=cdrom"
  }

  predicate StorageName(storage: string) {
    storage != "" && ':' !in storage && ',' !in storage && !IsSpace(storage[0])
  }

  /** A storage name, and a volume within it. */
  predicate VolumeName(storage: string, volume: string) {
    StorageName(storage) && volume != "" && ',' !in volume && !IsSpace(volume[|volume| - 1])
  }

  function VolidOf(storage: string, volume: string): string {
    storage + ":" + volume
  }

  function PrintSpec(storage: string, volume: string, before: seq<string>, s: Size, after: seq<string>): string {
    Join([VolidOf(storage, volume)] + before + ["size=" + PrintSize(s)] + after, ',')
  }

  lemma PrintedSizeOption(s: Size)
    requires Writable(s)
    ensures var o := "size=" + PrintSize(s);
            Trimmed(o) && ',' !in o && SizeOption(o) == Some(BytesOf(s)) && o != "media=cdrom"
  {
    var o := "size=" + PrintSize(s);
    PrintedSize(s);
    ParseSizePrinted(s);
    assert o[5..] == PrintSize(s) && o[..5] == "size=";
    assert "media=cdrom"[0] == 'm' && o[0] == 's';
  }

  /** Plain options after the size do not change it. */
  lemma {:induction false} LastSizeAmong(opts: seq<string>, at: nat)
    requires at < |opts| && SizeOption(opts[at]).Some?
    requires PlainOptions(opts[at + 1..])
    ensures LastSize(opts) == SizeOption(opts[at])
    decreases |opts|
  {
    if at + 1 < |opts| {
      assert PlainOption(opts[at + 1..][|opts| - at - 2]);
      var rest := opts[..|opts| - 1];
      assert rest[at + 1..] == opts[at + 1..][..|opts| - at - 2];
      LastSizeAmong(rest, at);
    }
  }

  /** A spec is its first field and its options. */
  lemma SpecFields(first: string, opts: seq<string>)
    requires ',' !in first && forall o <- opts :: OptionText(o)
    ensures var v := Join([first] + opts, ','); Split(v, ',') == [first] + opts && Options(v) == opts
  {
    var fields := [first] + opts;
    forall f | f in fields ensures ',' !in f { if f != first { assert OptionText(f); } }
    SplitJoin(fields, ',');
    forall i | 0 <= i < |opts| ensures TrimSpace(fields[i + 1]) == opts[i] {
      assert OptionText(opts[i]);
      TrimmedStays(opts[i]);
    }
  }

  lemma FieldsOf(storage: string, volume: string, before: seq<string>, s: Size, after: seq<string>)
    requires VolumeName(storage, volume) && DriveOptions(before) && PlainOptions(after) && Writable(s)
    ensures var v, opts := PrintSpec(storage, volume, before, s, after), before + ["size=" + PrintSize(s)] + after;
            Split(v, ',') == [VolidOf(storage, volume)] + opts && Options(v) == opts
  {
    var opts := before + ["size=" + PrintSize(s)] + after;
    PrintedSizeOption(s);
    assert [VolidOf(storage, volume)] + opts == [VolidOf(storage, volume)] + before + ["size=" + PrintSize(s)] + after;
    forall o | o in opts ensures OptionText(o) { if o in after { assert PlainOption(o); } }
    SpecFields(VolidOf(storage, volume), opts);
  }

  lemma VolumeParsed(storage: string, volume: string, v: string)
    requires VolumeName(storage, volume) && Split(v, ',')[0] == VolidOf(storage, volume)
    ensures VolumeOf(v) == Some((storage, VolidOf(storage, volume)))
  {
    var first := VolidOf(storage, volume);
    TrimmedStays(first);
    assert first[|storage|] == ':';
    CutHead(storage, ':', volume);
    assert first != "none" by { assert ':' in first && ':' !in "none"; }
  }

  /** Round trip: whatever options precede the size, other sizes included, and whatever plain ones
      follow it, parsing the printed spec gives back the storage, the volume id, and the size in bytes. */
  lemma ParsePrintedSpec(storage: string, volume: string, before: seq<string>, s: Size, after: seq<string>)
    requires VolumeName(storage, volume) && DriveOptions(before) && PlainOptions(after) && Writable(s)
    ensures DiskSpecOf(PrintSpec(storage, volume, before, s, after)) ==
            DiskSpec(storage, BytesOf(s), true, false, VolidOf(storage, volume))
  {
    var v, size := PrintSpec(storage, volume, before, s, after), "size=" + PrintSize(s);
    var opts := before + [size] + after;
    FieldsOf(storage, volume, before, s, after);
    VolumeParsed(storage, volume, v);
    PrintedSizeOption(s);
    assert opts[|before|] == size && opts[|before| + 1..] == after;
    LastSizeAmong(opts, |before|);
    forall o | o in opts ensures o != "media=cdrom" { if o in after { assert PlainOption(o); } }
  }

  /** Hence every order for a named storage can be carried out to the byte, as the landing relations ask. */
  lemma OrderCanLand(contents: Contents, node: string, o: Order, asked: DiskSpec, volume: string)
    requires Counts(o) && !Attaches(o, asked) && VolumeName(o.storage, volume) && 0 <= o.bytes <= MAX_INT64
    ensures var spec := DiskSpecOf(PrintSpec(o.storage, volume, [], Size(o.bytes, None), []));
            Materialised(contents, node, o, asked, spec) && Weight(contents, node, spec) == o.bytes
  {
    ParsePrintedSpec(o.storage, volume, [], Size(o.bytes, None), []);
  }

  // ---------------------------------------------------------------- create-time orders

  /** "storage:NN" with plain options: a new drive of so many GiB. */
  function PrintOrder(storage: string, gib: nat, opts: seq<string>): string {
    Join([VolidOf(storage, PrintNat(gib))] + opts, ',')
  }

  lemma PrintedCount(n: nat)
    ensures var s := PrintNat(n); s != "" && Trimmed(s) && ',' !in s
  {
    var s := PrintNat(n);
    PrintNatValue(n);
    forall i | 0 <= i < |s| ensures !IsSpace(s[i]) && s[i] != ',' { DigitChar(s[i]); }
  }

  lemma {:induction false} NoSize(opts: seq<string>)
    requires PlainOptions(opts)
    ensures LastSize(opts) == None && "media=cdrom" !in opts
  {
    if opts != [] {
      NoSize(opts[..|opts| - 1]);
      assert PlainOption(opts[|opts| - 1]);
      assert opts == opts[..|opts| - 1] + [opts[|opts| - 1]];
    }
  }

  /** Round trip of a create-time order: the storage, and as many bytes as that many times 1024^3,
      whatever plain options follow in whatever order. */
  lemma ParsePrintedOrder(storage: string, gib: nat, opts: seq<string>)
    requires StorageName(storage) && gib <= MAX_INT64 && PlainOptions(opts)
    ensures OrderOf(PrintOrder(storage, gib, opts)) == Order(storage, gib * Power1024(3), false)
  {
    var v, digits := PrintOrder(storage, gib, opts), PrintNat(gib);
    var first := VolidOf(storage, digits);
    PrintedCount(gib);
    forall o | o in opts ensures OptionText(o) { assert PlainOption(o); }
    SpecFields(first, opts);
    VolumeParsed(storage, digits, v);
    NoSize(opts);
    TrimmedStays(first);
    CutHead(storage, ':', digits);
    TrimmedStays(digits);
    ParsePrint(gib);
    assert Power1024(3) == 0x4000_0000;
  }
}
