/** The host lists handed to the launcher, and what a reader of them recovers. */
module Hostfile {
  import opened GoStrings

  datatype Host = Host(name: string, slots: int)

  /** A worker name that none of the three formats can confuse with its own punctuation. */
  predicate PlainName(name: string) {
    name != "" && forall c :: c in name ==> c !in {':', ' ', ',', '\n', '\''}
  }

  predicate PlainNames(names: seq<string>) { forall n :: n in names ==> PlainName(n) }

  function Hosts(workers: seq<string>, slots: int): (r: seq<Host>)
    ensures |r| == |workers|
    ensures forall k :: 0 <= k < |r| ==> r[k] == Host(workers[k], slots)
  {
    if workers == [] then [] else [Host(workers[0], slots)] + Hosts(workers[1..], slots)
  }

  // ---------- printers ----------

  function Entry(worker: string, slots: int): string { worker + ":" + Itoa(slots) }
  function DeepSpeedEntry(worker: string, slots: int): string { worker + " " + SlotsField(slots) }
  function SlotsField(slots: int): string { "slots=" + Itoa(slots) }

  /** getHostfileContent, as a function. */
  function Content(workers: seq<string>, slots: int): string {
    if workers == [] then "" else Entry(workers[0], slots) + "\n" + Content(workers[1..], slots)
  }

  /** getDeepSpeedHostfileContent, as a function. */
  function DeepSpeedContent(workers: seq<string>, slots: int): string {
    if workers == [] then ""
    else DeepSpeedEntry(workers[0], slots) + "\n" + DeepSpeedContent(workers[1..], slots)
  }

  function Entries(workers: seq<string>, slots: int): (r: seq<string>)
    ensures |r| == |workers| && forall k :: 0 <= k < |r| ==> r[k] == Entry(workers[k], slots)
  {
    if workers == [] then [] else [Entry(workers[0], slots)] + Entries(workers[1..], slots)
  }

  /** getHostfileContent. */
  method GetHostfileContent(workers: seq<string>, slot: int) returns (buffer: string)
    ensures buffer == Content(workers, slot)
  {
    buffer := "";
    for k := 0 to |workers|
      invariant buffer + Content(workers[k..], slot) == Content(workers, slot)
    {
      assert workers[k..][1..] == workers[k + 1..];
      assert buffer + Content(workers[k..], slot)
          == (buffer + Entry(workers[k], slot) + "\n") + Content(workers[k + 1..], slot);
      buffer := buffer + Entry(workers[k], slot) + "\n";
    }
  }

  /** getDeepSpeedHostfileContent. */
  method GetDeepSpeedHostfileContent(workers: seq<string>, slot: int) returns (buffer: string)
    ensures buffer == DeepSpeedContent(workers, slot)
  {
    buffer := "";
    for k := 0 to |workers|
      invariant buffer + DeepSpeedContent(workers[k..], slot) == DeepSpeedContent(workers, slot)
    {
      assert workers[k..][1..] == workers[k + 1..];
      assert buffer + DeepSpeedContent(workers[k..], slot)
          == (buffer + DeepSpeedEntry(workers[k], slot) + "\n") + DeepSpeedContent(workers[k + 1..], slot);
      buffer := buffer + DeepSpeedEntry(workers[k], slot) + "\n";
    }
  }

  lemma JoinFrom(parts: seq<string>, i: nat)
    requires i < |parts|
    ensures Join(parts[i..], ',')
         == if i == |parts| - 1 then parts[i] else parts[i] + [','] + Join(parts[i + 1..], ',')
  {
    assert parts[i..][1..] == parts[i + 1..];
  }

  /** The worker-list loop of scalerScript: pod1:slots,pod2:slots,... with no trailing comma. */
  method WorkerListArgument(workers: seq<string>, slots: int) returns (workerList: string)
    ensures workerList == Join(Entries(workers, slots), ',')
  {
    workerList := "";
    ghost var all := Entries(workers, slots);
    for i := 0 to |workers|
      invariant Join(all, ',') == workerList + Join(all[i..], ',')
    {
      JoinFrom(all, i);
      if i != |workers| - 1 {
        Regroup(workerList, all[i], Join(all[i + 1..], ','));
        workerList := workerList + Entry(workers[i], slots) + ",";
      } else {
        assert all[i + 1..] == [];
        workerList := workerList + Entry(workers[i], slots);
      }
    }
  }

  lemma Regroup(head: string, entry: string, rest: string)
    ensures head + (entry + [','] + rest) == (head + entry + ",") + rest
  {
  }

  /** hostfileUpdateScript. */
  function UpdateScript(hostfile: string, workers: seq<string>, slot: int): string {
    EchoScript(Content(workers, slot), hostfile)
  }

  function EchoScript(text: string, hostfile: string): string { "echo '" + text + "' > " + hostfile }

  // ---------- readers ----------

  /** A reader of one `name<sep>slots` entry. */
  function ReadEntry(line: string, sep: char, key: string): Option<Host> {
    var parts := Split(line, sep);
    if |parts| != 2 || !(key <= parts[1]) then None
    else match ParseInt(parts[1][|key|..])
      case Parsed(n) => Some(Host(parts[0], n))
      case _ => None
  }

  /** Reads the non-empty lines in order and fails on a malformed one. */
  function ReadEntries(lines: seq<string>, sep: char, key: string): Option<seq<Host>> {
    if lines == [] then Some([])
    else if lines[0] == "" then ReadEntries(lines[1..], sep, key)
    else match (ReadEntry(lines[0], sep, key), ReadEntries(lines[1..], sep, key))
      case (Some(h), Some(t)) => Some([h] + t)
      case _ => None
  }

  function ReadHostfile(text: string): Option<seq<Host>> { ReadEntries(Split(text, '\n'), ':', "") }
  function ReadDeepSpeed(text: string): Option<seq<Host>> { ReadEntries(Split(text, '\n'), ' ', "slots=") }
  function ReadArgument(text: string): Option<seq<Host>> { ReadEntries(Split(text, ','), ':', "") }

  /** What `sh -c` leaves in `hostfile`: the single-quoted text, with the newline echo adds. */
  function ShellEcho(script: string, hostfile: string): Option<string> {
    var parts := Split(script, '\'');
    if |parts| == 3 && parts[0] == "echo " && parts[2] == " > " + hostfile then Some(parts[1] + "\n")
    else None
  }

  // ---------- round trips ----------

  lemma EntryRoundTrip(worker: string, slots: int)
    requires PlainName(worker) && IsInt64(slots)
    ensures ReadEntry(Entry(worker, slots), ':', "") == Some(Host(worker, slots))
    ensures forall c :: c in Entry(worker, slots) ==> c !in {'\n', ',', '\''}
  {
    SplitHead(worker, ':', Itoa(slots));
    SplitWhole(Itoa(slots), ':');
    assert Entry(worker, slots) == worker + [':'] + Itoa(slots);
    ParseOfItoa(slots);
  }

  lemma DeepSpeedEntryRoundTrip(worker: string, slots: int)
    requires PlainName(worker) && IsInt64(slots)
    ensures ReadEntry(DeepSpeedEntry(worker, slots), ' ', "slots=") == Some(Host(worker, slots))
    ensures '\n' !in DeepSpeedEntry(worker, slots)
  {
    SlotsFieldReads(slots);
    SplitHead(worker, ' ', SlotsField(slots));
    SplitWhole(SlotsField(slots), ' ');
  }

  lemma SlotsFieldReads(slots: int)
    requires IsInt64(slots)
    ensures "slots=" <= SlotsField(slots)
    ensures ParseInt(SlotsField(slots)[|"slots="|..]) == Parsed(slots)
    ensures forall c :: c in SlotsField(slots) ==> c !in {' ', '\n'}
  {
    assert SlotsField(slots)[|"slots="|..] == Itoa(slots);
    ParseOfItoa(slots);
  }

  lemma BlankText(text: string)
    requires text in {"", "\n"}
    ensures ReadHostfile(text) == Some([])
  {
    assert [""][1..] == [] && ["", ""][1..] == [""];
    if text == "\n" {
      assert text[1..] == "" && Split("", '\n') == [""];
      assert Split(text, '\n') == ["", ""];
    }
  }

  lemma {:induction false} ReadContent(workers: seq<string>, slots: int, extra: string)
    requires PlainNames(workers) && IsInt64(slots)
    requires extra in {"", "\n"}
    ensures ReadHostfile(Content(workers, slots) + extra) == Some(Hosts(workers, slots))
  {
    if workers == [] {
      assert Content(workers, slots) + extra == extra;
      BlankText(extra);
    } else {
      var line, rest := Entry(workers[0], slots), Content(workers[1..], slots) + extra;
      EntryRoundTrip(workers[0], slots);
      assert Content(workers, slots) + extra == line + ['\n'] + rest;
      SplitHead(line, '\n', rest);
      ReadContent(workers[1..], slots, extra);
    }
  }

  /** The Horovod hostfile reads back to the workers and slots it was printed from, as it sits in
      the ConfigMap and as echo writes it. */
  lemma HostfileRoundTrip(workers: seq<string>, slots: int)
    requires PlainNames(workers) && IsInt64(slots)
    ensures ReadHostfile(Content(workers, slots)) == Some(Hosts(workers, slots))
    ensures ReadHostfile(Content(workers, slots) + "\n") == Some(Hosts(workers, slots))
  {
    assert Content(workers, slots) + "" == Content(workers, slots);
    ReadContent(workers, slots, "");
    ReadContent(workers, slots, "\n");
  }

  lemma {:induction false} DeepSpeedRoundTrip(workers: seq<string>, slots: int)
    requires PlainNames(workers) && IsInt64(slots)
    ensures ReadDeepSpeed(DeepSpeedContent(workers, slots)) == Some(Hosts(workers, slots))
  {
    if workers != [] {
      var line, rest := DeepSpeedEntry(workers[0], slots), DeepSpeedContent(workers[1..], slots);
      DeepSpeedEntryRoundTrip(workers[0], slots);
      assert DeepSpeedContent(workers, slots) == line + ['\n'] + rest;
      SplitHead(line, '\n', rest);
      DeepSpeedRoundTrip(workers[1..], slots);
    }
  }

  lemma {:induction false} ReadEntriesOf(workers: seq<string>, slots: int)
    requires PlainNames(workers) && IsInt64(slots)
    ensures ReadEntries(Entries(workers, slots), ':', "") == Some(Hosts(workers, slots))
    ensures forall e :: e in Entries(workers, slots) ==> ',' !in e
  {
    if workers != [] {
      EntryRoundTrip(workers[0], slots);
      ReadEntriesOf(workers[1..], slots);
      assert Entries(workers, slots)[1..] == Entries(workers[1..], slots);
    }
  }

  lemma ArgumentRoundTrip(workers: seq<string>, slots: int)
    requires PlainNames(workers) && IsInt64(slots)
    ensures ReadArgument(Join(Entries(workers, slots), ',')) == Some(Hosts(workers, slots))
  {
    ReadEntriesOf(workers, slots);
    if workers == [] {
      assert Split("", ',') == [""] && [""][1..] == [];
    } else {
      SplitOfJoin(Entries(workers, slots), ',');
    }
  }

  lemma {:induction false} ContentHasNoQuote(workers: seq<string>, slots: int)
    requires PlainNames(workers) && IsInt64(slots)
    ensures '\'' !in Content(workers, slots)
  {
    if workers != [] {
      EntryRoundTrip(workers[0], slots);
      ContentHasNoQuote(workers[1..], slots);
    }
  }

  /** Running the update script leaves a hostfile that reads back to the same hosts. */
  lemma UpdateScriptEffect(hostfile: string, workers: seq<string>, slots: int)
    requires PlainNames(workers) && IsInt64(slots) && '\'' !in hostfile
    ensures var text := ShellEcho(UpdateScript(hostfile, workers, slots), hostfile);
            text == Some(Content(workers, slots) + "\n")
            && ReadHostfile(text.value) == Some(Hosts(workers, slots))
  {
    ContentHasNoQuote(workers, slots);
    EchoWrites(Content(workers, slots), hostfile);
    HostfileRoundTrip(workers, slots);
  }

  lemma EchoWrites(text: string, hostfile: string)
    requires '\'' !in text && '\'' !in hostfile
    ensures ShellEcho(EchoScript(text, hostfile), hostfile) == Some(text + "\n")
  {
    var head, tail := "echo ", " > " + hostfile;
    var rest := text + ['\''] + tail;
    assert EchoScript(text, hostfile) == head + ['\''] + rest;
    SplitHead(head, '\'', rest);
    SplitHead(text, '\'', tail);
    SplitWhole(tail, '\'');
  }

  /** Two equal host tables come from the same worker list. */
  lemma HostsInjective(a: seq<string>, b: seq<string>, slots: int)
    requires Hosts(a, slots) == Hosts(b, slots)
    ensures a == b
  {
    forall k | 0 <= k < |a| ensures a[k] == b[k] {
      assert Hosts(a, slots)[k] == Hosts(b, slots)[k];
    }
  }
}
