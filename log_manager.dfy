/**
 * The categorised, append-only event log: where an event is written, which files
 * a cut-off date selects, and what deleting and archiving leave behind. The log
 * directory is a map from category to its files, each file a sequence of lines;
 * the archive directory maps a zip name to its entries.
 */
module LogService {
  import opened Results
  import opened Dates

  datatype Category = DEVICE | ENERGY | BATTERY | SYSTEM

  /** `Category.values()`, in declaration order. */
  const Categories: seq<Category> := [DEVICE, ENERGY, BATTERY, SYSTEM]

  /** An upper-case ASCII letter made lower-case; every other character kept. */
  function LowerChar(ch: char): char {
    if 'A' <= ch <= 'Z' then (ch as int + 32) as char else ch
  }

  /** `toLowerCase` on ASCII text. */
  function Lower(s: string): (t: string)
    ensures |t| == |s|
  {
    seq(|s|, i requires 0 <= i < |s| => LowerChar(s[i]))
  }

  /** The directory name of a category under `logs/`: the lower-case spelling of its constant. */
  function DirName(c: Category): (s: string)
    ensures |s| >= 6
    ensures s == Lower(CategoryName(c))
  {
    match c
    case DEVICE => "device"
    case ENERGY => "energy"
    case BATTERY => "battery"
    case SYSTEM => "system"
  }

  /** The enum constant's name, as `%s` renders it in the system mirror. */
  function CategoryName(c: Category): string {
    match c
    case DEVICE => "DEVICE"
    case ENERGY => "ENERGY"
    case BATTERY => "BATTERY"
    case SYSTEM => "SYSTEM"
  }

  lemma AllCategoriesListed(c: Category)
    ensures c in Categories
  {
  }

  // ---------------------------------------------------------------------------
  // File names

  /** `<name>_<yyyyMMdd>.log`. */
  function LogFileName(name: string, date: Date): (f: string)
    requires IsFormattable(date)
    ensures |f| == |name| + 13
  {
    name + "_" + Format(date) + ".log"
  }

  /** `logs_before_<yyyyMMdd>.zip`. */
  function ArchiveName(cutoff: Date): (f: string)
    requires IsFormattable(cutoff)
    ensures |f| == 24
  {
    "logs_before_" + Format(cutoff) + ".zip"
  }

  /** A zip entry name: the file's directory, a slash and the file name. */
  function EntryName(c: Category, fileName: string): string {
    DirName(c) + "/" + fileName
  }

  /** A line as `writeToLog` appends it, after an already rendered timestamp. */
  function LogLine(timestamp: string, message: string): string {
    "[" + timestamp + "] " + message
  }

  /** The eight characters that end four characters before the end of the name. */
  function DateSlot(fileName: string): (s: string)
    requires |fileName| >= 12
    ensures |s| == 8
  {
    fileName[|fileName| - 12 .. |fileName| - 4]
  }

  /**
   * `isLogFileBeforeDate`: the date in the slot is strictly before the cut-off.
   * A name too short for the slot, or a slot that does not parse, gives false.
   */
  function IsLogFileBeforeDate(fileName: string, cutoff: Date): (r: bool)
    ensures r ==> |fileName| >= 12 && AllDigits(DateSlot(fileName))
    ensures r ==> Parse(DateSlot(fileName)).Some? && IsBefore(Parse(DateSlot(fileName)).value, cutoff)
  {
    if |fileName| < 12 then false
    else match Parse(DateSlot(fileName))
      case None => false
      case Some(d) => IsBefore(d, cutoff)
  }

  /** The slot of a name built by `logEvent` is the rendered date. */
  lemma DateSlotOfLogFileName(name: string, date: Date)
    requires IsFormattable(date)
    ensures DateSlot(LogFileName(name, date)) == Format(date)
  {
    var f := LogFileName(name, date);
    assert f == (name + "_") + Format(date) + ".log";
    assert f[|f| - 12 .. |f| - 4] == Format(date);
  }

  /** A log file is selected by a cut-off exactly when its own date precedes it. */
  lemma LogFileNameRoundTrip(name: string, date: Date, cutoff: Date)
    requires IsFormattable(date)
    ensures IsLogFileBeforeDate(LogFileName(name, date), cutoff) == IsBefore(date, cutoff)
  {
    DateSlotOfLogFileName(name, date);
    ParseFormat(date);
  }

  /** A name whose slot holds a date on or before `day`. */
  predicate DatedOnOrBefore(fileName: string, day: Date) {
    |fileName| >= 12 &&
    match Parse(DateSlot(fileName))
    case None => false
    case Some(d) => !IsBefore(day, d)
  }

  /** With tomorrow as the cut-off, exactly the files dated today or earlier are selected. */
  lemma TomorrowSelectsTodayAndEarlier(fileName: string, today: Date)
    requires IsValid(today)
    ensures IsLogFileBeforeDate(fileName, NextDay(today)) <==> DatedOnOrBefore(fileName, today)
  {
    if |fileName| >= 12 {
      var p := Parse(DateSlot(fileName));
      if p.Some? {
        NextDayIsSuccessor(today, p.value);
      }
    }
  }

  // ---------------------------------------------------------------------------
  // Writing an event

  type Dir = map<string, seq<string>>

  /** One append of one line to one file of one category directory. */
  datatype Write = Write(category: Category, fileName: string, line: string)

  /**
   * The appends of `logEvent`: the event's own file in its category directory,
   * then, unless the category is SYSTEM, the day's system file with the message
   * prefixed by the category's name.
   */
  function EventWrites(category: Category, name: string, message: string, date: Date, timestamp: string): (ws: seq<Write>)
    requires IsFormattable(date)
    ensures 1 <= |ws| <= 2
    ensures |ws| == 1 <==> category == SYSTEM
    ensures ws[0].category == category && ws[0].fileName == LogFileName(name, date)
    ensures ws[0].line == LogLine(timestamp, message)
    ensures |ws| == 2 ==> ws[1].category == SYSTEM && ws[1].fileName == LogFileName("system", date)
    ensures |ws| == 2 ==> ws[1].line == LogLine(timestamp, CategoryName(category) + ": " + message)
  {
    var own := Write(category, LogFileName(name, date), LogLine(timestamp, message));
    if category == SYSTEM then [own]
    else [own, Write(SYSTEM, "system_" + Format(date) + ".log", LogLine(timestamp, CategoryName(category) + ": " + message))]
  }

  /**
   * `writeToLog`: appends a line, creating the directory and the file when missing.
   * The written file gains exactly that line; every other file keeps its lines.
   */
  function Append(dirs: map<Category, Dir>, w: Write): (r: map<Category, Dir>)
    ensures r.Keys == dirs.Keys + {w.category}
    ensures w.fileName in r[w.category]
    ensures LinesOf(r, w.category, w.fileName) == LinesOf(dirs, w.category, w.fileName) + [w.line]
    ensures forall c, f | c != w.category || f != w.fileName :: LinesOf(r, c, f) == LinesOf(dirs, c, f)
  {
    var dir := if w.category in dirs then dirs[w.category] else map[];
    var lines := if w.fileName in dir then dir[w.fileName] else [];
    dirs[w.category := dir[w.fileName := lines + [w.line]]]
  }

  /** The writes applied in order. */
  function AppendAll(dirs: map<Category, Dir>, ws: seq<Write>): map<Category, Dir>
    decreases |ws|
  {
    if ws == [] then dirs else AppendAll(Append(dirs, ws[0]), ws[1..])
  }

  /** A file that none of the writes names keeps its lines. */
  lemma {:induction false} AppendAllLeavesOthers(dirs: map<Category, Dir>, ws: seq<Write>, c: Category, f: string)
    requires forall i | 0 <= i < |ws| :: ws[i].category != c || ws[i].fileName != f
    ensures LinesOf(AppendAll(dirs, ws), c, f) == LinesOf(dirs, c, f)
    decreases |ws|
  {
    if ws != [] {
      assert ws[0].category != c || ws[0].fileName != f;
      assert forall i | 0 <= i < |ws[1..]| :: ws[1..][i] == ws[i + 1];
      AppendAllLeavesOthers(Append(dirs, ws[0]), ws[1..], c, f);
    }
  }

  /** The lines already in a file, or none when it does not exist yet. */
  function LinesOf(dirs: map<Category, Dir>, c: Category, fileName: string): seq<string> {
    if c in dirs && fileName in dirs[c] then dirs[c][fileName] else []
  }

  /**
   * After `logEvent`, the event's file holds its earlier lines plus the new one,
   * and a non-SYSTEM event also extends the day's system file by the prefixed line.
   */
  lemma EventIsRecorded(dirs: map<Category, Dir>, category: Category, name: string, message: string,
                        date: Date, timestamp: string)
    requires IsFormattable(date)
    ensures var after := AppendAll(dirs, EventWrites(category, name, message, date, timestamp));
            var own := LogFileName(name, date);
            var sys := LogFileName("system", date);
            && LinesOf(after, category, own) == LinesOf(dirs, category, own) + [LogLine(timestamp, message)]
            && (category != SYSTEM ==>
                  LinesOf(after, SYSTEM, sys) ==
                  LinesOf(dirs, SYSTEM, sys) + [LogLine(timestamp, CategoryName(category) + ": " + message)])
  {
    var ws := EventWrites(category, name, message, date, timestamp);
    var first := Append(dirs, ws[0]);
    if category == SYSTEM {
      assert AppendAll(dirs, ws) == AppendAll(first, []);
    } else {
      var second := Append(first, ws[1]);
      assert ws[1..] == [ws[1]] && [ws[1]][1..] == [];
      assert AppendAll(dirs, ws) == AppendAll(first, [ws[1]]) == AppendAll(second, []);
      assert LinesOf(second, category, LogFileName(name, date)) == LinesOf(first, category, LogFileName(name, date));
    }
  }

  /**
   * `logEvent` touches only the event's own file and, for a non-SYSTEM event, the
   * day's system file: every other file of every directory keeps its lines.
   */
  lemma EventLeavesOtherFiles(dirs: map<Category, Dir>, category: Category, name: string, message: string,
                              date: Date, timestamp: string, c: Category, f: string)
    requires IsFormattable(date)
    requires c != category || f != LogFileName(name, date)
    requires category == SYSTEM || c != SYSTEM || f != LogFileName("system", date)
    ensures LinesOf(AppendAll(dirs, EventWrites(category, name, message, date, timestamp)), c, f) == LinesOf(dirs, c, f)
  {
    AppendAllLeavesOthers(dirs, EventWrites(category, name, message, date, timestamp), c, f);
  }

  // ---------------------------------------------------------------------------
  // Deleting and archiving by cut-off

  /** The files of one directory that a cut-off leaves in place. */
  function Retained(dir: Dir, cutoff: Date): (r: Dir)
    ensures forall f :: f in r <==> f in dir && !IsLogFileBeforeDate(f, cutoff)
    ensures forall f :: f in r ==> r[f] == dir[f]
  {
    map f | f in dir && !IsLogFileBeforeDate(f, cutoff) :: dir[f]
  }

  /** Every category directory after deleting what a cut-off selects. */
  function RetainedAll(dirs: map<Category, Dir>, cutoff: Date): (r: map<Category, Dir>)
    ensures r.Keys == dirs.Keys
    ensures forall c :: c in r ==> r[c] == Retained(dirs[c], cutoff)
  {
    map c | c in dirs :: Retained(dirs[c], cutoff)
  }

  /** Different directory or file, different entry name. */
  lemma EntryNameInjective(c1: Category, f1: string, c2: Category, f2: string)
    requires EntryName(c1, f1) == EntryName(c2, f2)
    ensures c1 == c2 && f1 == f2
  {
    var e := EntryName(c1, f1);
    var d1, d2 := DirName(c1), DirName(c2);
    assert e[0] == d1[0] && e[0] == d2[0];
    assert c1 == c2;
    assert f1 == e[|d1| + 1..] == f2;
  }

  /** The entries one category directory contributes to an archive. */
  function CategoryEntries(c: Category, dir: Dir, cutoff: Date): map<string, seq<string>> {
    assert forall f1, f2 :: EntryName(c, f1) == EntryName(c, f2) ==> f1 == f2 by {
      forall f1, f2 | EntryName(c, f1) == EntryName(c, f2) ensures f1 == f2 {
        EntryNameInjective(c, f1, c, f2);
      }
    }
    map f | f in dir && IsLogFileBeforeDate(f, cutoff) :: EntryName(c, f) := dir[f]
  }

  /** A category contributes its selected files, under their entry names, and nothing else. */
  lemma CategoryEntriesSpec(c: Category, dir: Dir, cutoff: Date)
    ensures forall f :: f in dir && IsLogFileBeforeDate(f, cutoff) ==>
              EntryName(c, f) in CategoryEntries(c, dir, cutoff) && CategoryEntries(c, dir, cutoff)[EntryName(c, f)] == dir[f]
    ensures forall e :: e in CategoryEntries(c, dir, cutoff) ==>
              exists f :: f in dir && IsLogFileBeforeDate(f, cutoff) && e == EntryName(c, f)
  {
    var m := CategoryEntries(c, dir, cutoff);
    forall f | f in dir && IsLogFileBeforeDate(f, cutoff)
      ensures EntryName(c, f) in m && m[EntryName(c, f)] == dir[f]
    {
      forall g | g in dir && IsLogFileBeforeDate(g, cutoff) && EntryName(c, g) == EntryName(c, f)
        ensures g == f
      {
        EntryNameInjective(c, g, c, f);
      }
    }
  }

  /** The entries of an archive built from the listed categories, in order. */
  function ArchiveEntries(dirs: map<Category, Dir>, cutoff: Date, cats: seq<Category>): map<string, seq<string>>
    decreases |cats|
  {
    if cats == [] then map[]
    else
      var c := cats[|cats| - 1];
      ArchiveEntries(dirs, cutoff, cats[..|cats| - 1]) + (if c in dirs then CategoryEntries(c, dirs[c], cutoff) else map[])
  }

  /** Listing one more category adds its entries. */
  lemma ArchiveEntriesStep(dirs: map<Category, Dir>, cutoff: Date, cats: seq<Category>, c: Category)
    ensures ArchiveEntries(dirs, cutoff, cats + [c]) ==
            ArchiveEntries(dirs, cutoff, cats) + (if c in dirs then CategoryEntries(c, dirs[c], cutoff) else map[])
  {
    assert (cats + [c])[..|cats|] == cats;
  }

  /** Every file the cut-off selects is in the archive, under `<category>/<file>`, with its lines. */
  lemma {:induction false} ArchiveHoldsSelected(dirs: map<Category, Dir>, cutoff: Date, cats: seq<Category>, c: Category, f: string)
    requires c in cats && c in dirs && f in dirs[c] && IsLogFileBeforeDate(f, cutoff)
    ensures EntryName(c, f) in ArchiveEntries(dirs, cutoff, cats)
    ensures ArchiveEntries(dirs, cutoff, cats)[EntryName(c, f)] == dirs[c][f]
    decreases |cats|
  {
    var last := cats[|cats| - 1];
    var front := cats[..|cats| - 1];
    var tail := if last in dirs then CategoryEntries(last, dirs[last], cutoff) else map[];
    if last in dirs {
      CategoryEntriesSpec(last, dirs[last], cutoff);
    }
    if last != c {
      assert c in front;
      ArchiveHoldsSelected(dirs, cutoff, front, c, f);
      if EntryName(c, f) in tail {
        var g :| g in dirs[last] && IsLogFileBeforeDate(g, cutoff) && EntryName(c, f) == EntryName(last, g);
        EntryNameInjective(c, f, last, g);
      }
    }
  }

  /** Nothing else is in the archive: each entry is a selected file of a listed category. */
  lemma {:induction false} ArchiveHoldsOnlySelected(dirs: map<Category, Dir>, cutoff: Date, cats: seq<Category>, e: string)
    requires e in ArchiveEntries(dirs, cutoff, cats)
    ensures exists c, f :: c in cats && c in dirs && f in dirs[c] && IsLogFileBeforeDate(f, cutoff) && e == EntryName(c, f)
    decreases |cats|
  {
    var last := cats[|cats| - 1];
    var front := cats[..|cats| - 1];
    var tail := if last in dirs then CategoryEntries(last, dirs[last], cutoff) else map[];
    if last in dirs {
      CategoryEntriesSpec(last, dirs[last], cutoff);
    }
    if e in tail {
      var g :| g in dirs[last] && IsLogFileBeforeDate(g, cutoff) && e == EntryName(last, g);
    } else {
      ArchiveHoldsOnlySelected(dirs, cutoff, front, e);
      var c, f :| c in front && c in dirs && f in dirs[c] && IsLogFileBeforeDate(f, cutoff) && e == EntryName(c, f);
      assert c in cats;
    }
  }

  /** The log and archive directories, updated in place by the operations below. */
  class LogStore {
    var dirs: map<Category, Dir>
    var archive: map<string, map<string, seq<string>>>

    /**
     * `initializeDirectories`: every category directory exists afterwards; one that
     * already existed keeps its files, a missing one is created empty, and the
     * archive directory keeps whatever it held.
     */
    constructor (existing: map<Category, Dir>, existingArchive: map<string, map<string, seq<string>>>)
      ensures forall c | c in Categories :: c in dirs
      ensures forall c | c in existing :: c in dirs && dirs[c] == existing[c]
      ensures forall c | c in Categories && c !in existing :: dirs[c] == map[]
      ensures archive == existingArchive
    {
      var all := map c | c in Categories :: if c in existing then existing[c] else map[];
      forall c | c in existing
        ensures c in all
      {
        AllCategoriesListed(c);
      }
      dirs := all;
      archive := existingArchive;
    }

    /** `logEvent`, with the day and the rendered timestamp passed in. */
    method LogEvent(category: Category, name: string, message: string, date: Date, timestamp: string)
      requires IsFormattable(date)
      modifies this
      ensures dirs == AppendAll(old(dirs), EventWrites(category, name, message, date, timestamp))
      ensures archive == old(archive)
    {
      var ws := EventWrites(category, name, message, date, timestamp);
      dirs := Append(dirs, ws[0]);
      if category != SYSTEM {
        dirs := Append(dirs, ws[1]);
        assert ws[1..] == [ws[1]] && [ws[1]][1..] == [];
        assert AppendAll(old(dirs), ws) == AppendAll(Append(old(dirs), ws[0]), [ws[1]]);
      } else {
        assert AppendAll(old(dirs), ws) == AppendAll(Append(old(dirs), ws[0]), []);
      }
    }

    /** `deleteLogs`: each existing category directory loses the files dated before the cut-off. */
    method DeleteLogs(cutoff: Date)
      modifies this
      ensures dirs == RetainedAll(old(dirs), cutoff)
      ensures archive == old(archive)
    {
      var i := 0;
      while i < |Categories|
        invariant 0 <= i <= |Categories|
        invariant dirs.Keys == old(dirs).Keys && archive == old(archive)
        invariant forall c :: c in dirs ==>
                    dirs[c] == if c in Categories[..i] then Retained(old(dirs)[c], cutoff) else old(dirs)[c]
      {
        var c := Categories[i];
        assert Categories[..i + 1] == Categories[..i] + [c];
        if c in dirs {
          dirs := dirs[c := Retained(dirs[c], cutoff)];
        }
        i := i + 1;
      }
      forall c | c in dirs ensures c in Categories[..i] {
        AllCategoriesListed(c);
      }
    }

    /** Archives and deletes the selected files of one category directory, if it exists. */
    method ArchiveCategory(c: Category, cutoff: Date) returns (moved: map<string, seq<string>>)
      modifies this
      ensures moved == if c in old(dirs) then CategoryEntries(c, old(dirs)[c], cutoff) else map[]
      ensures dirs == if c in old(dirs) then old(dirs)[c := Retained(old(dirs)[c], cutoff)] else old(dirs)
      ensures archive == old(archive)
    {
      moved := map[];
      if c in dirs {
        moved := CategoryEntries(c, dirs[c], cutoff);
        dirs := dirs[c := Retained(dirs[c], cutoff)];
      }
    }

    /**
     * `archiveLogs`: `logs_before_<cut-off>.zip` is written (replacing any zip of
     * that name) with one entry per selected file, and each archived file is deleted.
     */
    method ArchiveLogs(cutoff: Date)
      requires IsFormattable(cutoff)
      modifies this
      ensures archive == old(archive)[ArchiveName(cutoff) := ArchiveEntries(old(dirs), cutoff, Categories)]
      ensures dirs == RetainedAll(old(dirs), cutoff)
    {
      var entries: map<string, seq<string>> := map[];
      ghost var before := dirs;
      ghost var done: seq<Category> := [];
      var i := 0;
      while i < |Categories|
        invariant 0 <= i <= |Categories|
        invariant dirs.Keys == old(dirs).Keys && archive == old(archive)
        invariant forall c :: c in dirs ==>
                    dirs[c] == if c in Categories[..i] then Retained(old(dirs)[c], cutoff) else old(dirs)[c]
        invariant done == Categories[..i]
        invariant entries == ArchiveEntries(before, cutoff, done)
      {
        var c := Categories[i];
        assert Categories[..i + 1] == Categories[..i] + [c];
        assert c !in Categories[..i];
        ArchiveEntriesStep(before, cutoff, done, c);
        var moved := ArchiveCategory(c, cutoff);
        entries := entries + moved;
        done := done + [c];
        i := i + 1;
      }
      assert done == Categories;
      forall c | c in dirs ensures c in Categories[..i] {
        AllCategoriesListed(c);
      }
      archive := archive[ArchiveName(cutoff) := entries];
    }

    /** `clearAllLogs`: delete with tomorrow as the cut-off. */
    method ClearAllLogs(today: Date)
      requires IsValid(today)
      modifies this
      ensures dirs.Keys == old(dirs).Keys && archive == old(archive)
      ensures forall c, f :: c in dirs ==> (f in dirs[c] <==> f in old(dirs)[c] && !DatedOnOrBefore(f, today))
      ensures forall c, f :: c in dirs && f in dirs[c] ==> f in old(dirs)[c] && dirs[c][f] == old(dirs)[c][f]
    {
      DeleteLogs(NextDay(today));
      forall c, f | c in dirs ensures f in dirs[c] <==> f in old(dirs)[c] && !DatedOnOrBefore(f, today) {
        TomorrowSelectsTodayAndEarlier(f, today);
      }
    }
  }
}
