/** `ganja sessions --live` as it runs over a directory no binder is moving in. */
module SessionListing {
  import opened Optional

  /** What lies at a socket path. */
  datatype File = Socket | NotASocket

  /** A registration record: one a listing can read, naming its session, or one it cannot. */
  datatype Record = Readable(name: string) | Unreadable

  /** What asking a socket for its health comes to. */
  datatype Probe = Unbindable | Session(id: string) | Refusal | Silence

  const UNREADABLE := "?"
  const HELD := "(held)"
  const UNNAMED := "-"

  datatype Row = Row(session: string, name: string, stem: string)

  function Readables(records: map<string, Record>): map<string, string> {
    map stem | stem in records && records[stem].Readable? :: records[stem].name
  }

  /** A socket nothing answers behind, whose name nobody live holds. */
  predicate Stale(files: map<string, File>, held: set<string>, probe: string -> Probe, stem: string) {
    stem in files && files[stem].Socket? && probe(stem).Silence? && stem !in held
  }

  function NameOf(records: map<string, Record>, stem: string): string {
    if stem in records && records[stem].Readable? then records[stem].name else UNNAMED
  }

  /** The row a visited entry prints under `name`, when it prints one. */
  function RowUnder(name: string, files: map<string, File>, held: set<string>, probe: string -> Probe,
                    stem: string): seq<Row>
  {
    if stem !in files || !files[stem].Socket? then []
    else match probe(stem)
      case Unbindable => []
      case Session(id) => [Row(id, name, stem)]
      case Refusal => [Row(UNREADABLE, name, stem)]
      case Silence => if stem in held then [Row(HELD, name, stem)] else []
  }

  function RowOf(files: map<string, File>, records: map<string, Record>, held: set<string>, probe: string -> Probe,
                 stem: string): seq<Row>
  {
    RowUnder(NameOf(records, stem), files, held, probe, stem)
  }

  function RowsOf(files: map<string, File>, records: map<string, Record>, held: set<string>, probe: string -> Probe,
                  entries: seq<string>): seq<Row>
  {
    if entries == [] then []
    else RowsOf(files, records, held, probe, entries[..|entries| - 1])
         + RowOf(files, records, held, probe, entries[|entries| - 1])
  }

  /** The stale names among the entries. */
  function StaleAmong(files: map<string, File>, held: set<string>, probe: string -> Probe,
                      entries: seq<string>): set<string>
  {
    if entries == [] then {}
    else
      var before := StaleAmong(files, held, probe, entries[..|entries| - 1]);
      var last := entries[|entries| - 1];
      if Stale(files, held, probe, last) then before + {last} else before
  }

  /** Those of the names whose record could be read. */
  function Read(records: map<string, Record>, stems: set<string>): set<string> {
    set stem | stem in stems && stem in records && records[stem].Readable?
  }

  predicate Distinct(entries: seq<string>) {
    forall i, j :: 0 <= i < j < |entries| ==> entries[i] != entries[j]
  }

  lemma {:induction false} StaleExactly(files: map<string, File>, held: set<string>, probe: string -> Probe,
                                        entries: seq<string>, stem: string)
    ensures stem in StaleAmong(files, held, probe, entries) <==> stem in entries && Stale(files, held, probe, stem)
  {
    if entries != [] {
      StaleExactly(files, held, probe, entries[..|entries| - 1], stem);
      assert entries == entries[..|entries| - 1] + [entries[|entries| - 1]];
    }
  }

  lemma OneMoreEntry(files: map<string, File>, records: map<string, Record>, held: set<string>, probe: string -> Probe,
                     entries: seq<string>, n: nat)
    requires n < |entries| && Distinct(entries)
    ensures StaleAmong(files, held, probe, entries[..n + 1])
            == StaleAmong(files, held, probe, entries[..n])
               + if Stale(files, held, probe, entries[n]) then {entries[n]} else {}
    ensures RowsOf(files, records, held, probe, entries[..n + 1])
            == RowsOf(files, records, held, probe, entries[..n]) + RowOf(files, records, held, probe, entries[n])
    ensures entries[n] !in StaleAmong(files, held, probe, entries[..n])
  {
    assert entries[..n + 1][..n] == entries[..n];
    StaleExactly(files, held, probe, entries[..n], entries[n]);
  }

  /** With some names gone, an entry that is none of them is seen, and goes, as it would have been at first. */
  lemma SeenPastTheGone(files: map<string, File>, records: map<string, Record>, held: set<string>,
                        probe: string -> Probe,
                        gone: set<string>, stem: string)
    requires stem !in gone
    ensures Stale(files - gone, held, probe, stem) == Stale(files, held, probe, stem)
    ensures var known := Readables(records) - gone;
            RowUnder(if stem in known then known[stem] else UNNAMED, files - gone, held, probe, stem)
              == RowOf(files, records, held, probe, stem)
    ensures files - gone - {stem} == files - (gone + {stem})
            && Readables(records) - gone - {stem} == Readables(records) - (gone + {stem})
    ensures records - Read(records, gone + {stem})
            == if stem in Readables(records) - gone then records - Read(records, gone) - {stem}
               else records - Read(records, gone)
    ensures gone + {} == gone
  {}

  class Directory {
    var files: map<string, File>
    var records: map<string, Record>
    /** The names whose lock a live binder holds. */
    var held: set<string>
    /** The one name whose lock this listing has claimed, while it has it. */
    var mine: Option<string>

    method Claim(stem: string) returns (claimed: bool)
      requires mine.None?
      modifies `mine
      ensures claimed <==> stem !in held
      ensures mine == if claimed then Some(stem) else None
    {
      claimed := stem !in held;
      if claimed {
        mine := Some(stem);
      }
    }

    method Release()
      requires mine.Some?
      modifies `mine
      ensures mine == None
    {
      mine := None;
    }

    /** Removes the socket at the claimed name; what is not a socket is refused and stays. */
    method UnlinkStale() returns (ok: bool)
      requires mine.Some?
      modifies `files
      ensures ok <==> mine.value !in old(files) || old(files)[mine.value].Socket?
      ensures files == if ok then old(files) - {mine.value} else old(files)
    {
      var stem := mine.value;
      ok := stem !in files || files[stem].Socket?;
      if ok {
        files := files - {stem};
      }
    }

    /** Removes the record at the claimed name; an absent one is nothing to remove. */
    method RemoveRecord()
      requires mine.Some?
      modifies `records
      ensures records == old(records) - {mine.value}
    {
      records := records - {mine.value};
    }

    /**
     * What a socket that stays silent comes to: reported held, or its name claimed and the dead socket removed
     * within the claim.
     */
    method Silent(stem: string, known: map<string, string>) returns (claimed: bool, left: map<string, string>)
      requires mine.None? && stem in files && files[stem].Socket?
      modifies `files, `records, `mine
      ensures mine.None?
      ensures claimed <==> stem !in held
      ensures files == if claimed then old(files) - {stem} else old(files)
      ensures records == if claimed && stem in known then old(records) - {stem} else old(records)
      ensures left == if claimed then known - {stem} else known
    {
      left := known;
      claimed := Claim(stem);
      if !claimed {
        return;
      }
      var removed := UnlinkStale();
      assert removed;
      if stem in left {
        left := left - {stem};
        RemoveRecord();
      }
      Release();
    }

    /** One entry: what it prints, and its socket and record gone if it is stale. */
    method Visit(stem: string, known: map<string, string>, probe: string -> Probe)
      returns (row: seq<Row>, left: map<string, string>)
      requires mine.None?
      modifies `files, `records, `mine
      ensures mine.None?
      ensures row == RowUnder(if stem in known then known[stem] else UNNAMED, old(files), held, probe, stem)
      ensures var stale := Stale(old(files), held, probe, stem);
              && files == (if stale then old(files) - {stem} else old(files))
              && records == (if stale && stem in known then old(records) - {stem} else old(records))
              && left == (if stale then known - {stem} else known)
    {
      row, left := [], known;
      if stem !in files || !files[stem].Socket? {
        return;
      }
      var name := if stem in known then known[stem] else UNNAMED;
      match probe(stem) {
        case Unbindable =>
        case Session(id) => row := [Row(id, name, stem)];
        case Refusal => row := [Row(UNREADABLE, name, stem)];
        case Silence =>
          var claimed: bool;
          claimed, left := Silent(stem, known);
          if !claimed {
            row := [Row(HELD, name, stem)];
          }
      }
    }

    /** The walk over the sockets: which of them go, with which records, and the rows it collects. */
    method Walk(entries: seq<string>, probe: string -> Probe) returns (rows: seq<Row>, known: map<string, string>)
      requires mine.None? && Distinct(entries)
      modifies `files, `records, `mine
      ensures mine.None?
      ensures rows == RowsOf(old(files), old(records), held, probe, entries)
      ensures files == old(files) - StaleAmong(old(files), held, probe, entries)
      ensures records == old(records) - Read(old(records), StaleAmong(old(files), held, probe, entries))
      ensures known == Readables(old(records)) - StaleAmong(old(files), held, probe, entries)
    {
      ghost var before, recorded := files, records;
      known := Readables(records);
      rows := [];
      for n := 0 to |entries|
        invariant mine.None?
        invariant rows == RowsOf(before, recorded, held, probe, entries[..n])
        invariant files == before - StaleAmong(before, held, probe, entries[..n])
        invariant records == recorded - Read(recorded, StaleAmong(before, held, probe, entries[..n]))
        invariant known == Readables(recorded) - StaleAmong(before, held, probe, entries[..n])
      {
        OneMoreEntry(before, recorded, held, probe, entries, n);
        SeenPastTheGone(before, recorded, held, probe, StaleAmong(before, held, probe, entries[..n]), entries[n]);
        var row: seq<Row>;
        row, known := Visit(entries[n], known, probe);
        rows := rows + row;
      }
      assert entries[..|entries|] == entries;
    }

    /**
     * The listing. With no binder moving, a socket goes exactly when it is stale, and a record exactly
     * when it was read, its name is not held and nothing is left at its socket's path.
     */
    method Live(entries: seq<string>, probe: string -> Probe) returns (rows: seq<Row>)
      requires mine.None? && Distinct(entries)
      requires forall stem :: stem in entries <==> stem in files
      modifies `files, `records, `mine
      ensures mine.None?
      ensures rows == RowsOf(old(files), old(records), held, probe, entries)
      ensures files == old(files) - StaleAmong(old(files), held, probe, entries)
      ensures forall stem :: stem in files <==> stem in old(files) && !Stale(old(files), held, probe, stem)
      ensures records == map stem | stem in old(records)
        && (old(records)[stem].Unreadable? || stem in held || stem in files) :: old(records)[stem]
    {
      ghost var before, recorded := files, records;
      ghost var dead := StaleAmong(files, held, probe, entries);
      var known: map<string, string>;
      rows, known := Walk(entries, probe);
      forall stem ensures stem in dead <==> stem in before && Stale(before, held, probe, stem) {
        StaleExactly(before, held, probe, entries, stem);
      }
      Sweep(known.Keys);
    }

    /** The second pass: the records read that no socket claimed. */
    method Sweep(stems: set<string>)
      requires mine.None?
      modifies `records, `mine
      ensures mine.None?
      ensures records == old(records) - (set stem | stem in stems && stem !in files && stem !in held)
    {
      var left := stems;
      while left != {}
        invariant mine.None? && left <= stems
        invariant records == old(records) - (set stem | stem in stems - left && stem !in files && stem !in held)
        decreases left
      {
        var stem :| stem in left;
        left := left - {stem};
        if stem in files {
          continue;
        }
        var claimed := Claim(stem);
        if !claimed {
          continue;
        }
        RemoveRecord();
        Release();
      }
    }
  }

  /** A name has a row exactly when its socket answered or is held. */
  lemma {:induction false} RowsAreTheLive(files: map<string, File>, records: map<string, Record>, held: set<string>,
                                          probe: string -> Probe, entries: seq<string>, stem: string)
    ensures (exists row :: row in RowsOf(files, records, held, probe, entries) && row.stem == stem)
            <==> stem in entries && stem in files && files[stem].Socket? && !probe(stem).Unbindable?
                 && !Stale(files, held, probe, stem)
  {
    if entries != [] {
      var n := |entries| - 1;
      RowsAreTheLive(files, records, held, probe, entries[..n], stem);
      var last := RowOf(files, records, held, probe, entries[n]);
      assert entries == entries[..n] + [entries[n]];
      assert forall row <- last :: row == last[0] && row.stem == entries[n];
      if last != [] {
        assert last[0] in RowsOf(files, records, held, probe, entries);
      }
    }
  }

  /** Each row says what its socket answered, under the name its record gives; none is printed twice. */
  lemma NoneTwice(before: seq<Row>, last: seq<Row>, stem: string)
    requires |last| <= 1 && forall row <- last :: row.stem == stem
    requires forall row <- before :: row.stem != stem
    requires forall i, j :: 0 <= i < j < |before| ==> before[i].stem != before[j].stem
    ensures forall i, j :: 0 <= i < j < |before + last| ==> (before + last)[i].stem != (before + last)[j].stem
  {}

  lemma {:induction false} RowsAreTrue(files: map<string, File>, records: map<string, Record>, held: set<string>,
                                       probe: string -> Probe, entries: seq<string>)
    requires Distinct(entries)
    ensures forall row <- RowsOf(files, records, held, probe, entries) ::
              row.stem in entries && row.name == NameOf(records, row.stem)
              && row.session == (match probe(row.stem) case Session(id) => id case Refusal => UNREADABLE case _ => HELD)
    ensures forall i, j :: 0 <= i < j < |RowsOf(files, records, held, probe, entries)| ==>
              RowsOf(files, records, held, probe, entries)[i].stem
                != RowsOf(files, records, held, probe, entries)[j].stem
  {
    if entries != [] {
      var n := |entries| - 1;
      var all, before, last := RowsOf(files, records, held, probe, entries),
        RowsOf(files, records, held, probe, entries[..n]), RowOf(files, records, held, probe, entries[n]);
      RowsAreTrue(files, records, held, probe, entries[..n]);
      assert entries == entries[..n] + [entries[n]];
      assert entries[n] !in entries[..n];
      NoneTwice(before, last, entries[n]);
    }
  }
}
