/** Plate thumbnails of .3mf archives: extracting them under `.thumbs`, and pruning them.

    The tree is a map from paths (component lists below the gcodes root) to files, with the set of
    directories beside it. Names are ASCII. Both walks may visit in any order. A write stamps the
    file with the time of the run. */
module QidiThumbs {
  import opened Wrappers

  type Path = seq<string>

  const THUMBS := ".thumbs"
  const MAX_PLATE_BYTES := 16 * 1024 * 1024

  /** An entry of an archive's directory; `readable` is whether its data can be read. */
  datatype Member = Member(name: string, size: nat, data: string, readable: bool)

  /** `members` is None for a file that is no archive, or not one yet. */
  datatype File = File(mtime: int, data: string, members: Option<seq<Member>>)
  datatype Tree = Tree(files: map<Path, File>, dirs: set<Path>)

  // ---------------------------------------------------------------- names

  function LowerChar(c: char): char { if 'A' <= c <= 'Z' then c - 'A' + 'a' else c }

  function Lower(s: string): (l: string)
    ensures |l| == |s| && forall i :: 0 <= i < |s| ==> l[i] == LowerChar(s[i])
  {
    seq(|s|, i requires 0 <= i < |s| => LowerChar(s[i]))
  }

  predicate EndsWith(s: string, suffix: string) { |s| >= |suffix| && s[|s| - |suffix|..] == suffix }

  predicate IsArchiveName(name: string) { EndsWith(Lower(name), ".3mf") }

  predicate OnlyDots(s: string) { forall i :: 0 <= i < |s| ==> s[i] == '.' }

  /** The last dot of a name, or its length. */
  function LastDot(s: string): (i: nat)
    ensures i <= |s| && (i < |s| ==> s[i] == '.') && forall k :: i < k < |s| ==> s[k] != '.'
    ensures i == |s| ==> forall k :: 0 <= k < |s| ==> s[k] != '.'
  {
    if s == [] then 0
    else if s[|s| - 1] == '.' then |s| - 1
    else var i := LastDot(s[..|s| - 1]); if i == |s| - 1 then |s| else i
  }

  /** A name without its extension; leading dots begin no extension. */
  function Stem(name: string): string {
    if OnlyDots(name[..LastDot(name)]) then name else name[..LastDot(name)]
  }

  predicate IsDigits(s: string) { |s| > 0 && forall i :: 0 <= i < |s| ==> '0' <= s[i] <= '9' }

  function Digits(n: nat): (s: string)
    ensures IsDigits(s)
  {
    if n < 10 then ['0' + n as char] else Digits(n / 10) + ['0' + (n % 10) as char]
  }

  function Number(s: string): nat
    requires IsDigits(s)
  {
    (if |s| == 1 then 0 else 10 * Number(s[..|s| - 1])) + (s[|s| - 1] - '0') as nat
  }

  /** `prefix`, digits, `.png`: the digits. A newline after them passes, as the pattern's end does. */
  function PlateDigits(name: string, prefix: string): Option<string> {
    var n := if EndsWith(name, "\n") then name[..|name| - 1] else name;
    if !(prefix <= n) || !EndsWith(n, ".png") || |n| < |prefix| + 4 then None
    else
      var d := n[|prefix|..|n| - 4];
      if IsDigits(d) then Some(d) else None
  }

  predicate IsPlateFile(name: string) { PlateDigits(name, "plate_").Some? }

  function PlateName(plate: nat): string { "plate_" + Digits(plate) + ".png" }

  lemma PlateNamesArePlates(plate: nat)
    ensures IsPlateFile(PlateName(plate))
  {
    var n := PlateName(plate);
    assert n[|n| - 1] == 'g';
    assert n[6..|n| - 4] == Digits(plate);
  }

  /** The archive's directory below `.thumbs`: its own subdirectory there, and its stem. */
  function ThumbDir(archive: Path): Path
    requires archive != []
  {
    [THUMBS] + archive[..|archive| - 1] + [Stem(archive[|archive| - 1])]
  }

  function ThumbPath(archive: Path, plate: nat): Path
    requires archive != []
  {
    ThumbDir(archive) + [PlateName(plate)]
  }

  // ---------------------------------------------------------------- one archive

  /** The plate a member is, if it is one and small enough. */
  function PlateOf(m: Member): Option<nat> {
    match PlateDigits(m.name, "Metadata/plate_")
    case None => None
    case Some(d) => if m.size > MAX_PLATE_BYTES then None else Some(Number(d))
  }

  // ---------------------------------------------------------------- plate numbers

  lemma {:induction false} NumberOfDigits(k: nat)
    ensures Number(Digits(k)) == k
  {
    if k >= 10 {
      var d := Digits(k);
      assert d[..|d| - 1] == Digits(k / 10);
      NumberOfDigits(k / 10);
    }
  }

  /** Without leading zeros a number is written one way. */
  predicate Plain(d: string) { IsDigits(d) && (|d| == 1 || d[0] != '0') }

  lemma {:induction false} PlainIsPositive(d: string)
    requires Plain(d) && d != "0"
    ensures Number(d) > 0
  {
    if |d| > 1 {
      var front := d[..|d| - 1];
      assert front[0] == d[0];
      PlainIsPositive(front);
    }
  }

  lemma {:induction false} DigitsOfNumber(d: string)
    requires Plain(d)
    ensures Digits(Number(d)) == d
  {
    if |d| > 1 {
      var front, last := d[..|d| - 1], d[|d| - 1];
      assert front[0] == d[0];
      DigitsOfNumber(front);
      PlainIsPositive(front);
      var v := (last - '0') as nat;
      assert Number(d) == 10 * Number(front) + v && v < 10;
      assert Number(d) / 10 == Number(front) && Number(d) % 10 == v;
      assert '0' + v as char == last;
      assert d == front + [last];
    }
  }

  lemma DigitsOfName(prefix: string, d: string)
    requires IsDigits(d)
    ensures PlateDigits(prefix + d + ".png", prefix) == Some(d)
  {
    var n := prefix + d + ".png";
    assert n[|n| - 1] == 'g';
    assert n[|n| - 4..] == ".png" && n[..|prefix|] == prefix;
    assert n[|prefix|..|n| - 4] == d;
  }

  lemma NameOfDigits(name: string, prefix: string)
    requires PlateDigits(name, prefix).Some?
    ensures var d := PlateDigits(name, prefix).value;
            IsDigits(d) && (name == prefix + d + ".png" || name == prefix + d + ".png\n")
  {
    var n := if EndsWith(name, "\n") then name[..|name| - 1] else name;
    var d := PlateDigits(name, prefix).value;
    assert n == n[..|prefix|] + n[|prefix|..|n| - 4] + n[|n| - 4..];
    assert n == prefix + d + ".png";
    if EndsWith(name, "\n") { assert name == n + "\n" && ".png" + "\n" == ".png\n"; }
  }

  /** The member that bears a plate's own name is that plate. */
  lemma PlateOfItsName(k: nat, size: nat, data: string, readable: bool)
    requires size <= MAX_PLATE_BYTES
    ensures PlateOf(Member("Metadata/" + PlateName(k), size, data, readable)) == Some(k)
  {
    var prefix := "Metadata/plate_";
    assert "Metadata/" + PlateName(k) == prefix + Digits(k) + ".png" by {
      assert "Metadata/" + "plate_" == prefix;
    }
    DigitsOfName(prefix, Digits(k));
    NumberOfDigits(k);
  }

  lemma PlateNamesDiffer(j: nat, k: nat)
    requires PlateName(j) == PlateName(k)
    ensures j == k
  {
    assert PlateName(j)[6..|PlateName(j)| - 4] == Digits(j);
    assert PlateName(k)[6..|PlateName(k)| - 4] == Digits(k);
    NumberOfDigits(j);
    NumberOfDigits(k);
  }

  /** Two plates of one archive have two thumbnails, below `.thumbs` in the archive's directory. */
  lemma ThumbPathsDiffer(a: Path, j: nat, k: nat)
    requires a != [] && ThumbPath(a, j) == ThumbPath(a, k)
    ensures j == k
  {
    var p := ThumbPath(a, j);
    assert p[|p| - 1] == PlateName(j) && p[|p| - 1] == PlateName(k);
    PlateNamesDiffer(j, k);
  }

  lemma Rejoin(a: string, b: string, d: string, e: string, f: string)
    ensures (a + b) + d + e == a + (b + d + e) && (a + b) + d + (e + f) == a + (b + d + e) + f
  {
  }

  lemma NameOfPlainDigits(name: string)
    requires PlateDigits(name, "Metadata/plate_").Some? && Plain(PlateDigits(name, "Metadata/plate_").value)
    ensures var base := PlateName(Number(PlateDigits(name, "Metadata/plate_").value));
            name == "Metadata/" + base || name == "Metadata/" + base + "\n"
  {
    var d := PlateDigits(name, "Metadata/plate_").value;
    NameOfDigits(name, "Metadata/plate_");
    DigitsOfNumber(d);
    Rejoin("Metadata/", "plate_", d, ".png", "\n");
    assert "Metadata/" + "plate_" == "Metadata/plate_" && ".png" + "\n" == ".png\n";
  }

  /** A member is a plate exactly if its name is the plate pattern and it is small enough; and
      without leading zeros its thumbnail bears its name, but for a newline at the end. */
  lemma DestinationBearsTheName(a: Path, m: Member)
    requires a != []
    ensures PlateOf(m).Some? <==> PlateDigits(m.name, "Metadata/plate_").Some? && m.size <= MAX_PLATE_BYTES
    ensures PlateOf(m).Some? && Plain(PlateDigits(m.name, "Metadata/plate_").value) ==>
              var p := ThumbPath(a, PlateOf(m).value); var name := "Metadata/" + p[|p| - 1];
              m.name == name || m.name == name + "\n"
  {
    if PlateOf(m).Some? && Plain(PlateDigits(m.name, "Metadata/plate_").value) { NameOfPlainDigits(m.name); }
  }

  // ---------------------------------------------------------------- the jobs of an archive

  predicate Fresh(t: Tree, dest: Path, mtime: int) { dest in t.files && t.files[dest].mtime >= mtime }

  datatype Job = Job(dest: Path, data: string)

  /** The members to write, in order, or None when reading one fails. */
  function Pending(t: Tree, archive: Path, mtime: int, ms: seq<Member>): Option<seq<Job>>
    requires archive != []
    decreases |ms|
  {
    if ms == [] then Some([])
    else
      var plate := PlateOf(ms[0]);
      if plate.None? || Fresh(t, ThumbPath(archive, plate.value), mtime) then Pending(t, archive, mtime, ms[1..])
      else if !ms[0].readable then None
      else match Pending(t, archive, mtime, ms[1..])
        case None => None
        case Some(jobs) => Some([Job(ThumbPath(archive, plate.value), ms[0].data)] + jobs)
  }

  function Jobs(t: Tree, archive: Path): Option<seq<Job>>
    requires archive != [] && archive in t.files
  {
    var f := t.files[archive];
    if f.members.None? then None else Pending(t, archive, f.mtime, f.members.value)
  }

  function Parents(p: Path): set<Path> { set i | 0 < i < |p| :: p[..i] }

  function WriteOne(t: Tree, job: Job, now: int): Tree {
    Tree(t.files[job.dest := File(now, job.data, None)], t.dirs + Parents(job.dest))
  }

  function WriteAll(t: Tree, jobs: seq<Job>, now: int): Tree
    decreases |jobs|
  {
    if jobs == [] then t else WriteAll(WriteOne(t, jobs[0], now), jobs[1..], now)
  }

  function Extract(t: Tree, archive: Path, now: int): Tree
    requires archive != []
  {
    if archive !in t.files then t
    else match Jobs(t, archive) case None => t case Some(jobs) => WriteAll(t, jobs, now)
  }

  /** No plate would be written: each is fresh, or reading fails before any is. */
  predicate Settled(t: Tree, archive: Path)
    requires archive != []
  {
    archive !in t.files || Jobs(t, archive) == None || Jobs(t, archive) == Some([])
  }

  /** Every plate the archive holds is there and not older than it. */
  predicate Current(t: Tree, archive: Path, mtime: int, ms: seq<Member>)
    requires archive != []
  {
    forall i :: 0 <= i < |ms| && PlateOf(ms[i]).Some? ==> Fresh(t, ThumbPath(archive, PlateOf(ms[i]).value), mtime)
  }

  lemma {:induction false} NothingPendingExactly(t: Tree, archive: Path, mtime: int, ms: seq<Member>)
    requires archive != []
    ensures Pending(t, archive, mtime, ms) == Some([]) <==> Current(t, archive, mtime, ms)
    decreases |ms|
  {
    if ms != [] {
      NothingPendingExactly(t, archive, mtime, ms[1..]);
      assert Current(t, archive, mtime, ms) <==>
             (PlateOf(ms[0]).Some? ==> Fresh(t, ThumbPath(archive, PlateOf(ms[0]).value), mtime))
             && Current(t, archive, mtime, ms[1..]) by {
        if Current(t, archive, mtime, ms) {
          forall i | 0 <= i < |ms[1..]| && PlateOf(ms[1..][i]).Some?
            ensures Fresh(t, ThumbPath(archive, PlateOf(ms[1..][i]).value), mtime)
          {
            assert ms[1..][i] == ms[i + 1];
          }
        }
      }
    }
  }

  ghost predicate IsThumbOf(archive: Path, p: Path)
    requires archive != []
  {
    exists k: nat :: p == ThumbPath(archive, k)
  }

  lemma {:induction false} JobsAreThumbs(t: Tree, archive: Path, mtime: int, ms: seq<Member>)
    requires archive != [] && Pending(t, archive, mtime, ms).Some?
    ensures var jobs := Pending(t, archive, mtime, ms).value;
            forall j :: 0 <= j < |jobs| ==> IsThumbOf(archive, jobs[j].dest)
    decreases |ms|
  {
    if ms != [] {
      JobsAreThumbs(t, archive, mtime, ms[1..]);
      var plate := PlateOf(ms[0]);
      if plate.Some? { assert IsThumbOf(archive, ThumbPath(archive, plate.value)); }
    }
  }

  predicate WritesTo(jobs: seq<Job>, p: Path) { exists j :: 0 <= j < |jobs| && jobs[j].dest == p }

  lemma WritesCons(job: Job, rest: seq<Job>, p: Path)
    ensures WritesTo([job] + rest, p) <==> job.dest == p || WritesTo(rest, p)
  {
    var jobs := [job] + rest;
    if j :| 0 <= j < |jobs| && jobs[j].dest == p { if j > 0 { assert rest[j - 1] == jobs[j]; } }
    if j :| 0 <= j < |rest| && rest[j].dest == p { assert jobs[j + 1] == rest[j]; }
    assert jobs[0] == job;
  }

  /** Every plate of the archive is fresh or among the jobs. */
  lemma {:induction false} StalePlatesAreJobs(t: Tree, archive: Path, mtime: int, ms: seq<Member>, i: nat)
    requires archive != [] && Pending(t, archive, mtime, ms).Some? && i < |ms| && PlateOf(ms[i]).Some?
    ensures var p := ThumbPath(archive, PlateOf(ms[i]).value);
            Fresh(t, p, mtime) || WritesTo(Pending(t, archive, mtime, ms).value, p)
    decreases |ms|
  {
    var p, plate, rest := ThumbPath(archive, PlateOf(ms[i]).value), PlateOf(ms[0]), Pending(t, archive, mtime, ms[1..]);
    if i > 0 {
      assert ms[1..][i - 1] == ms[i];
      StalePlatesAreJobs(t, archive, mtime, ms[1..], i - 1);
    }
    if plate.Some? && !Fresh(t, ThumbPath(archive, plate.value), mtime) {
      WritesCons(Job(ThumbPath(archive, plate.value), ms[0].data), rest.value, p);
    }
  }

  /** Writing touches the destinations only, and stamps them with the time of the run. */
  lemma {:induction false} WritesExactly(t: Tree, jobs: seq<Job>, now: int, p: Path)
    ensures var w := WriteAll(t, jobs, now);
            && (p in w.files <==> p in t.files || WritesTo(jobs, p))
            && (p in w.files ==> if WritesTo(jobs, p) then w.files[p].mtime == now else w.files[p] == t.files[p])
    decreases |jobs|
  {
    if jobs != [] {
      assert jobs == [jobs[0]] + jobs[1..];
      WritesCons(jobs[0], jobs[1..], p);
      WritesExactly(WriteOne(t, jobs[0], now), jobs[1..], now, p);
    }
  }

  /** Writing makes the directories a file needs, and no others. */
  lemma {:induction false} WritesMakeParents(t: Tree, jobs: seq<Job>, now: int, d: Path)
    ensures d in WriteAll(t, jobs, now).dirs <==>
            d in t.dirs || exists j :: 0 <= j < |jobs| && d != [] && d < jobs[j].dest
    decreases |jobs|
  {
    if jobs != [] {
      var m := WriteOne(t, jobs[0], now);
      WritesMakeParents(m, jobs[1..], now, d);
      ParentsExactly(jobs[0].dest, d);
      if j :| 0 <= j < |jobs[1..]| && d != [] && d < jobs[1..][j].dest { assert jobs[j + 1] == jobs[1..][j]; }
      if j :| 0 <= j < |jobs| && d != [] && d < jobs[j].dest {
        if j > 0 { assert jobs[1..][j - 1] == jobs[j]; }
      }
    }
  }

  lemma ParentsExactly(p: Path, d: Path)
    ensures d in Parents(p) <==> d != [] && d < p
  {
    if d < p { assert d == p[..|d|]; }
  }

  /** The data of the last job for `p`. */
  function LastData(jobs: seq<Job>, p: Path): Option<string>
    decreases |jobs|
  {
    if jobs == [] then None
    else
      var later := LastData(jobs[1..], p);
      if later.Some? then later else if jobs[0].dest == p then Some(jobs[0].data) else None
  }

  /** Where two jobs have one destination, the later one's data stands. */
  lemma {:induction false} LastWriteStands(t: Tree, jobs: seq<Job>, now: int, p: Path)
    requires LastData(jobs, p).Some?
    ensures var w := WriteAll(t, jobs, now); p in w.files && w.files[p] == File(now, LastData(jobs, p).value, None)
    decreases |jobs|
  {
    var m := WriteOne(t, jobs[0], now);
    if LastData(jobs[1..], p).Some? {
      LastWriteStands(m, jobs[1..], now, p);
    } else {
      NoDataNoWrite(jobs[1..], p);
      WritesExactly(m, jobs[1..], now, p);
    }
  }

  lemma {:induction false} NoDataNoWrite(jobs: seq<Job>, p: Path)
    ensures LastData(jobs, p).None? <==> !WritesTo(jobs, p)
    decreases |jobs|
  {
    if jobs != [] {
      NoDataNoWrite(jobs[1..], p);
      WritesCons(jobs[0], jobs[1..], p);
      assert jobs == [jobs[0]] + jobs[1..];
    }
  }

  predicate GoesTo(archive: Path, m: Member, p: Path)
    requires archive != []
  {
    PlateOf(m).Some? && ThumbPath(archive, PlateOf(m).value) == p
  }

  /** The data of the last member of an archive that maps to `p`. */
  function LastMember(archive: Path, ms: seq<Member>, p: Path): Option<string>
    requires archive != []
    decreases |ms|
  {
    if ms == [] then None
    else
      var later := LastMember(archive, ms[1..], p);
      if later.Some? then later else if GoesTo(archive, ms[0], p) then Some(ms[0].data) else None
  }

  lemma {:induction false} LastMemberIsLastJob(t: Tree, archive: Path, mtime: int, ms: seq<Member>, p: Path)
    requires archive != [] && Pending(t, archive, mtime, ms).Some? && !Fresh(t, p, mtime)
    ensures LastData(Pending(t, archive, mtime, ms).value, p) == LastMember(archive, ms, p)
    decreases |ms|
  {
    if ms != [] {
      LastMemberIsLastJob(t, archive, mtime, ms[1..], p);
      var plate := PlateOf(ms[0]);
      if plate.Some? && !Fresh(t, ThumbPath(archive, plate.value), mtime) {
        var rest := Pending(t, archive, mtime, ms[1..]).value;
        assert Pending(t, archive, mtime, ms).value[1..] == rest;
      }
    }
  }

  /** A stale plate gets the data of the last member that maps to it. */
  lemma PlateHoldsItsMember(t: Tree, archive: Path, now: int, p: Path)
    requires archive != [] && archive in t.files && Jobs(t, archive).Some?
    requires LastMember(archive, t.files[archive].members.value, p).Some? && !Fresh(t, p, t.files[archive].mtime)
    ensures var e := Extract(t, archive, now);
            p in e.files
            && e.files[p] == File(now, LastMember(archive, t.files[archive].members.value, p).value, None)
  {
    var f := t.files[archive];
    LastMemberIsLastJob(t, archive, f.mtime, f.members.value, p);
    LastWriteStands(t, Jobs(t, archive).value, now, p);
  }

  // ---------------------------------------------------------------- the walk over archives

  /** Not below `.thumbs`. */
  predicate Outside(p: Path) { p != [] && (p[0] != THUMBS || |p| == 1) }

  predicate Hidden(name: string) { name != "" && name[0] == '.' }

  /** What the walk finds: hidden directories are not entered, hidden files are taken. */
  predicate IsArchive(t: Tree, p: Path) {
    p != [] && p in t.files && IsArchiveName(p[|p| - 1]) && forall i :: 0 <= i < |p| - 1 ==> !Hidden(p[i])
  }

  lemma ArchivesAreOutside(t: Tree, p: Path)
    requires IsArchive(t, p)
    ensures Outside(p)
  {
  }

  function ExtractAll(t: Tree, order: seq<Path>, now: int): Tree
    requires forall i :: 0 <= i < |order| ==> order[i] != []
    decreases |order|
  {
    if order == [] then t else ExtractAll(Extract(t, order[0], now), order[1..], now)
  }

  /** The archives of a pass that could not be read at their turn. */
  function Unreadable(t: Tree, order: seq<Path>, now: int): (bad: seq<Path>)
    requires forall i :: 0 <= i < |order| ==> order[i] != []
    ensures forall i :: 0 <= i < |bad| ==> bad[i] in order
    decreases |order|
  {
    if order == [] then []
    else
      var rest := Unreadable(Extract(t, order[0], now), order[1..], now);
      if order[0] !in t.files || Jobs(t, order[0]) == None then [order[0]] + rest else rest
  }

  /** How many plates one archive, and a pass over many, would write. */
  function Writes(t: Tree, archive: Path): nat
    requires archive != []
  {
    if archive !in t.files || Jobs(t, archive) == None then 0 else |Jobs(t, archive).value|
  }

  function WritesOfPass(t: Tree, order: seq<Path>, now: int): nat
    requires forall i :: 0 <= i < |order| ==> order[i] != []
    decreases |order|
  {
    if order == [] then 0 else Writes(t, order[0]) + WritesOfPass(Extract(t, order[0], now), order[1..], now)
  }

  /** A pass takes the archive at its turn, and goes on from there. */
  lemma PassTakes(t: Tree, order: seq<Path>, i: nat, now: int)
    requires i < |order| && forall j :: 0 <= j < |order| ==> order[j] != []
    ensures var a, n, rest := order[i], Extract(t, order[i], now), order[i + 1..];
            && ExtractAll(t, order[i..], now) == ExtractAll(n, rest, now)
            && WritesOfPass(t, order[i..], now) == Writes(t, a) + WritesOfPass(n, rest, now)
            && Unreadable(t, order[i..], now) ==
                 (if a !in t.files || Jobs(t, a) == None then [a] else []) + Unreadable(n, rest, now)
  {
    assert order[i..][0] == order[i] && order[i..][1..] == order[i + 1..];
  }

  function WritesOfRun(t: Tree, order: seq<Path>, now: int): nat
    requires forall i :: 0 <= i < |order| ==> order[i] != []
  {
    WritesOfPass(t, order, now) + WritesOfPass(ExtractAll(t, order, now), Unreadable(t, order, now), now)
  }

  /** One pass over all archives, and one more over those that could not be read. */
  function ExtractThumbs(t: Tree, order: seq<Path>, now: int): Tree
    requires forall i :: 0 <= i < |order| ==> order[i] != []
  {
    ExtractAll(ExtractAll(t, order, now), Unreadable(t, order, now), now)
  }

  /** Extracting one archive writes only its own plates, and stamps what it writes. */
  lemma ExtractAt(t: Tree, b: Path, now: int, p: Path)
    requires b != []
    ensures var e := Extract(t, b, now);
            && (p in t.files ==> p in e.files && (e.files[p] == t.files[p] || e.files[p].mtime == now))
            && (!IsThumbOf(b, p) ==> (p in e.files <==> p in t.files) && (p in t.files ==> e.files[p] == t.files[p]))
  {
    if b in t.files && Jobs(t, b).Some? {
      var jobs := Jobs(t, b).value;
      JobsAreThumbs(t, b, t.files[b].mtime, t.files[b].members.value);
      WritesExactly(t, jobs, now, p);
    }
  }

  lemma ExtractTouchesItsPlatesOnly(t: Tree, b: Path, now: int)
    requires b != []
    ensures var e := Extract(t, b, now);
            && (forall p :: p in t.files ==> p in e.files && (e.files[p] == t.files[p] || e.files[p].mtime == now))
            && (forall p :: !IsThumbOf(b, p) ==> (p in e.files <==> p in t.files))
            && (forall p :: !IsThumbOf(b, p) && p in t.files ==> e.files[p] == t.files[p])
  {
    forall p: Path { ExtractAt(t, b, now, p); }
  }

  lemma OutsideIsNoThumb(archive: Path, p: Path)
    requires archive != [] && Outside(p)
    ensures !IsThumbOf(archive, p)
  {
  }

  predicate Present(t: Tree, archives: seq<Path>) {
    forall i :: 0 <= i < |archives| ==> Outside(archives[i]) && archives[i] in t.files
  }

  /** Two archives whose names differ but whose plates go to the same place. */
  predicate Clash(a: Path, b: Path) { a != [] && b != [] && a != b && ThumbDir(a) == ThumbDir(b) }

  predicate WhollyReadable(f: File) {
    f.members.Some? && forall i :: 0 <= i < |f.members.value| && PlateOf(f.members.value[i]).Some? ==>
      f.members.value[i].readable
  }

  /** An archive that shares its thumbnail directory with another of the run can be read in full and
      is not newer than the clock. */
  predicate Tidy(t: Tree, archives: seq<Path>, a: Path, now: int)
    requires a in t.files
  {
    forall i :: 0 <= i < |archives| && Clash(a, archives[i]) ==> WhollyReadable(t.files[a]) && t.files[a].mtime <= now
  }

  lemma {:induction false} ReadableIsNeverBad(t: Tree, archive: Path, mtime: int, ms: seq<Member>)
    requires archive != [] && forall i :: 0 <= i < |ms| && PlateOf(ms[i]).Some? ==> ms[i].readable
    ensures Pending(t, archive, mtime, ms).Some?
    decreases |ms|
  {
    if ms != [] { ReadableIsNeverBad(t, archive, mtime, ms[1..]); }
  }

  lemma ExtractKeepsPresent(t: Tree, b: Path, archives: seq<Path>, now: int)
    requires b != [] && Present(t, archives)
    ensures Present(Extract(t, b, now), archives)
    ensures forall i :: 0 <= i < |archives| ==> Extract(t, b, now).files[archives[i]] == t.files[archives[i]]
  {
    ExtractTouchesItsPlatesOnly(t, b, now);
    forall i | 0 <= i < |archives| ensures !IsThumbOf(b, archives[i]) { OutsideIsNoThumb(b, archives[i]); }
  }

  lemma ExtractSettles(t: Tree, a: Path, now: int)
    requires Outside(a) && a in t.files && t.files[a].mtime <= now
    ensures Settled(Extract(t, a, now), a)
  {
    ExtractTouchesItsPlatesOnly(t, a, now);
    OutsideIsNoThumb(a, a);
    if Jobs(t, a).Some? {
      var f, jobs, e := t.files[a], Jobs(t, a).value, Extract(t, a, now);
      forall i | 0 <= i < |f.members.value| && PlateOf(f.members.value[i]).Some?
        ensures Fresh(e, ThumbPath(a, PlateOf(f.members.value[i]).value), f.mtime)
      {
        StalePlatesAreJobs(t, a, f.mtime, f.members.value, i);
        WritesExactly(t, jobs, now, ThumbPath(a, PlateOf(f.members.value[i]).value));
      }
      NothingPendingExactly(e, a, f.mtime, f.members.value);
    }
  }

  lemma {:induction false} PendingReadsItsPlates(t: Tree, u: Tree, archive: Path, mtime: int, ms: seq<Member>)
    requires archive != []
    requires forall k: nat :: Fresh(t, ThumbPath(archive, k), mtime) <==> Fresh(u, ThumbPath(archive, k), mtime)
    ensures Pending(t, archive, mtime, ms) == Pending(u, archive, mtime, ms)
    decreases |ms|
  {
    if ms != [] { PendingReadsItsPlates(t, u, archive, mtime, ms[1..]); }
  }

  lemma ThumbsApart(a: Path, b: Path, k: nat)
    requires a != [] && b != [] && ThumbDir(a) != ThumbDir(b)
    ensures !IsThumbOf(b, ThumbPath(a, k))
  {
    var p := ThumbPath(a, k);
    assert p[..|p| - 1] == ThumbDir(a);
    forall j: nat ensures ThumbPath(b, j) != p {
      assert ThumbPath(b, j)[..|ThumbPath(b, j)| - 1] == ThumbDir(b);
    }
  }

  /** A settled archive stays settled while others are extracted. */
  lemma SettledStays(t: Tree, a: Path, b: Path, now: int)
    requires Outside(a) && Outside(b) && a in t.files && t.files[a].mtime <= now && Settled(t, a)
    requires a != b ==> ThumbDir(a) != ThumbDir(b) || WhollyReadable(t.files[a])
    ensures Settled(Extract(t, b, now), a)
  {
    if a == b {
      ExtractSettles(t, a, now);
    } else {
      var f, e := t.files[a], Extract(t, b, now);
      ExtractTouchesItsPlatesOnly(t, b, now);
      OutsideIsNoThumb(b, a);
      assert e.files[a] == f;
      if f.members.Some? {
        var ms := f.members.value;
        if Jobs(t, a) == Some([]) {
          NothingPendingExactly(t, a, f.mtime, ms);
          forall i | 0 <= i < |ms| && PlateOf(ms[i]).Some?
            ensures Fresh(e, ThumbPath(a, PlateOf(ms[i]).value), f.mtime)
          {
            assert Fresh(t, ThumbPath(a, PlateOf(ms[i]).value), f.mtime);
          }
          NothingPendingExactly(e, a, f.mtime, ms);
        } else {
          if WhollyReadable(f) { ReadableIsNeverBad(t, a, f.mtime, ms); }
          forall k: nat ensures !IsThumbOf(b, ThumbPath(a, k)) { ThumbsApart(a, b, k); }
          PendingReadsItsPlates(t, e, a, f.mtime, ms);
        }
      }
    }
  }

  lemma {:induction false} PassKeepsSettled(t: Tree, order: seq<Path>, archives: seq<Path>, a: Path, now: int)
    requires Present(t, archives) && a in archives && Tidy(t, archives, a, now)
    requires t.files[a].mtime <= now && Settled(t, a)
    requires forall i :: 0 <= i < |order| ==> order[i] in archives
    ensures var e := ExtractAll(t, order, now);
            Present(e, archives) && Settled(e, a) && a in e.files && e.files[a] == t.files[a]
    decreases |order|
  {
    if order != [] {
      assert order[0] in archives;
      assert a != order[0] && ThumbDir(a) == ThumbDir(order[0]) ==> Clash(a, order[0]);
      SettledStays(t, a, order[0], now);
      ExtractKeepsPresent(t, order[0], archives, now);
      PassKeepsSettled(Extract(t, order[0], now), order[1..], archives, a, now);
    }
  }

  lemma {:induction false} PassSettles(t: Tree, order: seq<Path>, archives: seq<Path>, a: Path, now: int)
    requires Present(t, archives) && a in order && a in archives && Tidy(t, archives, a, now)
    requires t.files[a].mtime <= now && forall i :: 0 <= i < |order| ==> order[i] in archives
    ensures var e := ExtractAll(t, order, now);
            Present(e, archives) && Settled(e, a) && a in e.files && e.files[a] == t.files[a]
    decreases |order|
  {
    assert order[0] in archives;
    ExtractKeepsPresent(t, order[0], archives, now);
    var n := Extract(t, order[0], now);
    if order[0] == a {
      ExtractSettles(t, a, now);
      PassKeepsSettled(n, order[1..], archives, a, now);
    } else {
      assert a in order[1..];
      PassSettles(n, order[1..], archives, a, now);
    }
  }

  lemma {:induction false} JobsAreStale(t: Tree, archive: Path, mtime: int, ms: seq<Member>)
    requires archive != [] && Pending(t, archive, mtime, ms).Some?
    ensures var jobs := Pending(t, archive, mtime, ms).value;
            forall j :: 0 <= j < |jobs| ==> !Fresh(t, jobs[j].dest, mtime)
    decreases |ms|
  {
    if ms != [] { JobsAreStale(t, archive, mtime, ms[1..]); }
  }

  /** Extracting an archive newer than the clock makes none of its plates fresh, and extracting
      another one touches none of them. */
  lemma NewerStaysPending(t: Tree, a: Path, b: Path, now: int)
    requires Outside(a) && Outside(b) && a in t.files && t.files[a].mtime > now
    requires a != b ==> ThumbDir(a) != ThumbDir(b)
    ensures var e := Extract(t, b, now); a in e.files && e.files[a] == t.files[a] && Jobs(e, a) == Jobs(t, a)
  {
    var f, e := t.files[a], Extract(t, b, now);
    ExtractTouchesItsPlatesOnly(t, b, now);
    OutsideIsNoThumb(b, a);
    if f.members.Some? {
      forall k: nat ensures Fresh(e, ThumbPath(a, k), f.mtime) <==> Fresh(t, ThumbPath(a, k), f.mtime) {
        if a != b {
          ThumbsApart(a, b, k);
        } else if Jobs(t, a).Some? {
          JobsAreStale(t, a, f.mtime, f.members.value);
          WritesExactly(t, Jobs(t, a).value, now, ThumbPath(a, k));
        }
      }
      PendingReadsItsPlates(t, e, a, f.mtime, f.members.value);
    }
  }

  lemma {:induction false} PassKeepsNewer(t: Tree, order: seq<Path>, archives: seq<Path>, a: Path, now: int)
    requires Present(t, archives) && a in archives && Tidy(t, archives, a, now) && t.files[a].mtime > now
    requires forall i :: 0 <= i < |order| ==> order[i] in archives
    ensures var e := ExtractAll(t, order, now);
            Present(e, archives) && a in e.files && e.files[a] == t.files[a] && Jobs(e, a) == Jobs(t, a)
    decreases |order|
  {
    if order != [] {
      assert order[0] in archives;
      assert !Clash(a, order[0]);
      NewerStaysPending(t, a, order[0], now);
      ExtractKeepsPresent(t, order[0], archives, now);
      PassKeepsNewer(Extract(t, order[0], now), order[1..], archives, a, now);
    }
  }

  /** After a run an archive is settled, all its plates there and no older than it or some of it not
      to be read, exactly if it is not newer than the clock or was settled before. */
  lemma ARunSettlesExactly(t: Tree, order: seq<Path>, a: Path, now: int)
    requires Present(t, order) && a in order && Tidy(t, order, a, now)
    ensures var e := ExtractThumbs(t, order, now);
            a in e.files && e.files[a] == t.files[a]
            && (Settled(e, a) <==> t.files[a].mtime <= now || Settled(t, a))
  {
    var m, bad := ExtractAll(t, order, now), Unreadable(t, order, now);
    if t.files[a].mtime <= now {
      PassSettles(t, order, order, a, now);
      PassKeepsSettled(m, bad, order, a, now);
    } else {
      PassKeepsNewer(t, order, order, a, now);
      PassKeepsNewer(m, bad, order, a, now);
    }
  }

  lemma {:induction false} FresherReads(t: Tree, u: Tree, a: Path, mtime: int, ms: seq<Member>)
    requires a != [] && Pending(t, a, mtime, ms).Some?
    requires forall k: nat :: Fresh(t, ThumbPath(a, k), mtime) ==> Fresh(u, ThumbPath(a, k), mtime)
    ensures Pending(u, a, mtime, ms).Some?
    decreases |ms|
  {
    if ms != [] { FresherReads(t, u, a, mtime, ms[1..]); }
  }

  /** Whether an archive can be read does not change as archives with other thumbnails, or itself, are
      extracted. */
  lemma ReadingStands(t: Tree, a: Path, b: Path, now: int)
    requires Outside(a) && Outside(b) && a in t.files && (a != b ==> ThumbDir(a) != ThumbDir(b))
    ensures var e := Extract(t, b, now);
            a in e.files && e.files[a] == t.files[a] && (Jobs(e, a) == None <==> Jobs(t, a) == None)
  {
    var f, e := t.files[a], Extract(t, b, now);
    ExtractTouchesItsPlatesOnly(t, b, now);
    OutsideIsNoThumb(b, a);
    if f.members.Some? {
      if a != b {
        forall k: nat ensures Fresh(e, ThumbPath(a, k), f.mtime) <==> Fresh(t, ThumbPath(a, k), f.mtime) {
          ThumbsApart(a, b, k);
        }
        PendingReadsItsPlates(t, e, a, f.mtime, f.members.value);
      } else if Jobs(t, a).Some? {
        JobsAreStale(t, a, f.mtime, f.members.value);
        forall k: nat | Fresh(t, ThumbPath(a, k), f.mtime) ensures Fresh(e, ThumbPath(a, k), f.mtime) {
          WritesExactly(t, Jobs(t, a).value, now, ThumbPath(a, k));
        }
        FresherReads(t, e, a, f.mtime, f.members.value);
      }
    }
  }

  /** The archives left for the retry are exactly those that cannot be read: where no two share a
      thumbnail directory. */
  lemma {:induction false} UnreadableExactly(t: Tree, order: seq<Path>, now: int, a: Path)
    requires Present(t, order) && Outside(a) && a in t.files
    requires forall i :: 0 <= i < |order| && order[i] != a ==> ThumbDir(order[i]) != ThumbDir(a)
    ensures a in Unreadable(t, order, now) <==> a in order && Jobs(t, a) == None
    decreases |order|
  {
    if order != [] {
      var e := Extract(t, order[0], now);
      ReadingStands(t, a, order[0], now);
      ExtractKeepsPresent(t, order[0], order, now);
      UnreadableExactly(e, order[1..], now, a);
    }
  }

  /** An upload that lands between the pass and its retry: whatever tree the retry finds, an archive
      that could not be read at its turn is settled by it, if not newer than the clock. */
  lemma LateArchivesAreRetried(t: Tree, order: seq<Path>, now: int, a: Path, later: Tree)
    requires Present(t, order) && a in order && Jobs(t, a) == None
    requires forall i :: 0 <= i < |order| && order[i] != a ==> ThumbDir(order[i]) != ThumbDir(a)
    requires Present(later, order) && later.files[a].mtime <= now
    ensures Settled(ExtractAll(later, Unreadable(t, order, now), now), a)
  {
    UnreadableExactly(t, order, now, a);
    var bad := Unreadable(t, order, now);
    assert Present(later, bad) by {
      forall i | 0 <= i < |bad| ensures Outside(bad[i]) && bad[i] in later.files { assert bad[i] in order; }
    }
    assert Tidy(later, bad, a, now) by {
      forall i | 0 <= i < |bad| ensures !Clash(a, bad[i]) { assert bad[i] in order; }
    }
    PassSettles(later, bad, bad, a, now);
  }

  /** What a run writes are plates below `.thumbs`; every other file is as it was. */
  lemma {:induction false} PassTouchesPlatesOnly(t: Tree, order: seq<Path>, now: int, p: Path)
    requires forall i :: 0 <= i < |order| ==> order[i] != []
    requires !IsPlatePath(p)
    ensures var e := ExtractAll(t, order, now);
            (p in e.files <==> p in t.files) && (p in t.files ==> e.files[p] == t.files[p])
    decreases |order|
  {
    if order != [] {
      ExtractTouchesItsPlatesOnly(t, order[0], now);
      if IsThumbOf(order[0], p) {
        var k: nat :| p == ThumbPath(order[0], k);
        PlateNamesArePlates(k);
      }
      PassTouchesPlatesOnly(Extract(t, order[0], now), order[1..], now, p);
    }
  }

  predicate IsPlatePath(p: Path) { |p| >= 2 && p[0] == THUMBS && IsPlateFile(p[|p| - 1]) }

  lemma ExtractTouchesPlatesOnly(t: Tree, order: seq<Path>, now: int, p: Path)
    requires forall i :: 0 <= i < |order| ==> order[i] != []
    requires !IsPlatePath(p)
    ensures var e := ExtractThumbs(t, order, now);
            (p in e.files <==> p in t.files) && (p in t.files ==> e.files[p] == t.files[p])
  {
    PassTouchesPlatesOnly(t, order, now, p);
    PassTouchesPlatesOnly(ExtractAll(t, order, now), Unreadable(t, order, now), now, p);
  }

  // ---------------------------------------------------------------- pruning

  function Entries(t: Tree, d: Path): set<string> {
    set p | p in t.files.Keys + t.dirs && |p| == |d| + 1 && p[..|d|] == d :: p[|d|]
  }

  /** The directory whose archives a directory below `.thumbs` serves. */
  function Mirror(dir: Path): Path { if |dir| <= 2 then [] else dir[1..|dir| - 1] }

  predicate SourceExists(t: Tree, dir: Path)
    requires dir != []
  {
    exists n :: n in Entries(t, Mirror(dir)) && Lower(n) == Lower(dir[|dir| - 1] + ".3mf")
  }

  function FileNames(t: Tree, dir: Path): set<string> {
    set p | p in t.files.Keys && |p| == |dir| + 1 && p[..|dir|] == dir :: p[|dir|]
  }

  function Plates(t: Tree, dir: Path): set<string> { set n | n in FileNames(t, dir) && IsPlateFile(n) }

  function Without(t: Tree, dir: Path, names: set<string>): Tree {
    t.(files := t.files - (set n | n in names :: dir + [n]))
  }

  /** The directory goes only if the plates were all it held. */
  function PruneDir(t: Tree, dir: Path): Tree
    requires dir != []
  {
    if Plates(t, dir) == {} || SourceExists(t, dir) then t
    else
      var n := Without(t, dir, Plates(t, dir));
      if Entries(n, dir) == {} then n.(dirs := n.dirs - {dir}) else n
  }

  predicate BelowThumbs(order: seq<Path>) { forall i :: 0 <= i < |order| ==> order[i] != [] && order[i][0] == THUMBS }

  function Prune(t: Tree, order: seq<Path>): Tree
    requires BelowThumbs(order)
    decreases |order|
  {
    if order == [] then t else Prune(PruneDir(t, order[0]), order[1..])
  }

  function Removals(t: Tree, order: seq<Path>): nat
    requires BelowThumbs(order)
    decreases |order|
  {
    if order == [] then 0
    else (if SourceExists(t, order[0]) then 0 else |Plates(t, order[0])|) + Removals(PruneDir(t, order[0]), order[1..])
  }

  predicate MirrorsOutside(dir: Path) { |dir| <= 2 || dir[1] != THUMBS }

  lemma NameAt(t: Tree, d: Path, x: string)
    ensures x in FileNames(t, d) <==> d + [x] in t.files
  {
    var p := d + [x];
    assert p[..|d|] == d && p[|d|] == x;
    if x in FileNames(t, d) {
      var q :| q in t.files.Keys && |q| == |d| + 1 && q[..|d|] == d && q[|d|] == x;
      assert q == q[..|d|] + [q[|d|]];
    }
  }

  lemma PlateAt(t: Tree, d: Path, x: string)
    ensures x in Plates(t, d) <==> d + [x] in t.files && IsPlateFile(x)
  {
    NameAt(t, d, x);
  }

  lemma WithoutAt(t: Tree, dir: Path, names: set<string>, p: Path)
    requires p != []
    ensures var n := Without(t, dir, names);
            && (p in n.files <==> p in t.files && !(p[..|p| - 1] == dir && p[|p| - 1] in names))
            && (p in n.files ==> n.files[p] == t.files[p]) && n.dirs == t.dirs
  {
    var gone := set n | n in names :: dir + [n];
    if p in gone {
      var n :| n in names && p == dir + [n];
      assert p[..|p| - 1] == dir;
    }
    if p[..|p| - 1] == dir && p[|p| - 1] in names { assert p == dir + [p[|p| - 1]]; }
  }

  lemma PruneDirIs(t: Tree, dir: Path)
    requires dir != []
    ensures PruneDir(t, dir).files ==
            (if SourceExists(t, dir) then t else Without(t, dir, Plates(t, dir))).files
    ensures PruneDir(t, dir).dirs <= t.dirs && t.dirs - {dir} <= PruneDir(t, dir).dirs
  {
  }

  /** Pruning one directory drops its plates exactly if their source is gone. */
  lemma PruneDirExactly(t: Tree, dir: Path, p: Path)
    requires dir != [] && p != []
    ensures var n := PruneDir(t, dir);
            && (p in n.files <==>
                p in t.files && !(p[..|p| - 1] == dir && IsPlateFile(p[|p| - 1]) && !SourceExists(t, dir)))
            && (p in n.files ==> n.files[p] == t.files[p])
            && n.dirs <= t.dirs && t.dirs - {dir} <= n.dirs
  {
    PruneDirIs(t, dir);
    WithoutAt(t, dir, Plates(t, dir), p);
    PlateAt(t, p[..|p| - 1], p[|p| - 1]);
    assert p == p[..|p| - 1] + [p[|p| - 1]];
  }

  /** The directory goes exactly if plates were removed there and they were all it held. */
  lemma PruneDirDropsExactly(t: Tree, dir: Path, d: Path)
    requires dir != []
    ensures d in PruneDir(t, dir).dirs <==>
            d in t.dirs
            && !(d == dir && Plates(t, dir) != {} && !SourceExists(t, dir)
                 && forall x :: x in Entries(t, dir) ==> x in Plates(t, dir) && dir + [x] !in t.dirs)
  {
    if d == dir && Plates(t, dir) != {} && !SourceExists(t, dir) {
      var n := Without(t, dir, Plates(t, dir));
      forall x ensures x in Entries(n, dir) <==> x in Entries(t, dir) && (x !in Plates(t, dir) || dir + [x] in t.dirs) {
        EntryAt(n, dir, x);
        EntryAt(t, dir, x);
        WithoutAt(t, dir, Plates(t, dir), dir + [x]);
      }
    }
  }

  lemma {:induction false} PathsOfNames(dir: Path, names: set<string>)
    ensures |set n | n in names :: dir + [n]| == |names|
    decreases |names|
  {
    if x :| x in names {
      var rest := names - {x};
      var all, some := set n | n in names :: dir + [n], set n | n in rest :: dir + [n];
      PathsOfNames(dir, rest);
      forall n | n in rest ensures dir + [n] != dir + [x] { assert (dir + [n])[|dir|] == n; }
      assert dir + [x] !in some;
      assert all == some + {dir + [x]};
    } else {
      assert (set n | n in names :: dir + [n]) == {};
    }
  }

  lemma PruneDirCounts(t: Tree, dir: Path)
    requires dir != []
    ensures |t.files| == |PruneDir(t, dir).files| + if SourceExists(t, dir) then 0 else |Plates(t, dir)|
  {
    PruneDirIs(t, dir);
    if !SourceExists(t, dir) {
      var names := Plates(t, dir);
      var gone, n := set x | x in names :: dir + [x], Without(t, dir, names);
      PathsOfNames(dir, names);
      forall p | p in gone ensures p in t.files {
        var x :| x in names && p == dir + [x];
        PlateAt(t, dir, x);
      }
      assert n.files.Keys == t.files.Keys - gone;
      assert |t.files| == |t.files.Keys| && |n.files| == |n.files.Keys|;
      assert |t.files.Keys - gone| == |t.files.Keys| - |gone|;
    }
  }

  /** The prune reports exactly how many files it removed. */
  lemma {:induction false} RemovalsCount(t: Tree, order: seq<Path>)
    requires BelowThumbs(order)
    ensures |t.files| == |Prune(t, order).files| + Removals(t, order)
    decreases |order|
  {
    if order != [] {
      PruneDirCounts(t, order[0]);
      RemovalsCount(PruneDir(t, order[0]), order[1..]);
    }
  }

  lemma DifferentEnds(n: string, w: string)
    requires n == THUMBS
    ensures Lower(n) != Lower(w + ".3mf")
  {
    assert (w + ".3mf")[|w| + 3] == 'f' && THUMBS[6] == 's';
    if |n| == |w + ".3mf"| {
      assert Lower(n)[6] == 's' && Lower(w + ".3mf")[6] == 'f';
    }
  }

  lemma EntryStands(t: Tree, dir: Path, d: Path, x: string)
    requires dir != [] && dir[0] == THUMBS && (d == [] || d[0] != THUMBS) && x != THUMBS
    ensures x in Entries(PruneDir(t, dir), d) <==> x in Entries(t, d)
  {
  }

  /** What a source is looked for in lies outside `.thumbs`, so pruning does not move it. */
  lemma SourcesStand(t: Tree, dir: Path, other: Path)
    requires dir != [] && dir[0] == THUMBS && other != [] && MirrorsOutside(other)
    ensures SourceExists(PruneDir(t, dir), other) <==> SourceExists(t, other)
  {
    var n, d, w := PruneDir(t, dir), Mirror(other), other[|other| - 1];
    DifferentEnds(THUMBS, w);
    if SourceExists(t, other) {
      var x :| x in Entries(t, d) && Lower(x) == Lower(w + ".3mf");
      EntryStands(t, dir, d, x);
    }
    if SourceExists(n, other) {
      var x :| x in Entries(n, d) && Lower(x) == Lower(w + ".3mf");
      EntryStands(t, dir, d, x);
    }
  }

  lemma EntryAt(t: Tree, d: Path, x: string)
    ensures x in Entries(t, d) <==> d + [x] in t.files.Keys + t.dirs
  {
    var p := d + [x];
    if p in t.files.Keys + t.dirs { assert p[..|d|] == d && p[|d|] == x; }
    if x in Entries(t, d) {
      var q :| q in t.files.Keys + t.dirs && |q| == |d| + 1 && q[..|d|] == d && q[|d|] == x;
      assert q == q[..|d|] + [q[|d|]];
    }
  }

  /** The `i`th visit is to `dir` and finds no source for it in the tree as it is by then. */
  predicate FindsNoSource(t: Tree, order: seq<Path>, dir: Path, i: nat)
    requires BelowThumbs(order) && i < |order|
  {
    order[i] == dir && !SourceExists(Prune(t, order[..i]), dir)
  }

  lemma FindsLater(t: Tree, order: seq<Path>, dir: Path, i: nat)
    requires BelowThumbs(order) && 0 < i < |order|
    ensures FindsNoSource(t, order, dir, i) <==> FindsNoSource(PruneDir(t, order[0]), order[1..], dir, i - 1)
  {
    assert order[..i][1..] == order[1..][..i - 1];
  }

  /** Over any tree and any walk, a file goes exactly if it is a plate and some visit of its
      directory finds no source there; everything else stays as it was. */
  lemma {:induction false} PruneExactly(t: Tree, order: seq<Path>, p: Path)
    requires BelowThumbs(order) && p != []
    ensures var n, dir := Prune(t, order), p[..|p| - 1];
            && (p in n.files <==>
                p in t.files && !(IsPlateFile(p[|p| - 1])
                                  && exists i: nat :: i < |order| && FindsNoSource(t, order, dir, i)))
            && (p in n.files ==> n.files[p] == t.files[p])
    decreases |order|
  {
    if order != [] {
      var dir, m := p[..|p| - 1], PruneDir(t, order[0]);
      PruneDirExactly(t, order[0], p);
      PruneExactly(m, order[1..], p);
      assert FindsNoSource(t, order, dir, 0) <==> order[0] == dir && !SourceExists(t, dir);
      if i: nat :| i < |order| && FindsNoSource(t, order, dir, i) {
        if i > 0 { FindsLater(t, order, dir, i); }
      }
      if i: nat :| i < |order[1..]| && FindsNoSource(m, order[1..], dir, i) {
        FindsLater(t, order, dir, i + 1);
      }
    }
  }

  /** A plate whose mirrored directory lies outside `.thumbs` goes exactly if its directory is
      visited and its archive is gone from there, whatever the order of the walk. */
  lemma {:induction false} PruneOutsideExactly(t: Tree, order: seq<Path>, p: Path)
    requires BelowThumbs(order) && p != [] && MirrorsOutside(p[..|p| - 1])
    ensures var n, dir := Prune(t, order), p[..|p| - 1];
            && (p in n.files <==>
                p in t.files && !(dir in order && IsPlateFile(p[|p| - 1]) && !SourceExists(t, dir)))
            && (p in n.files ==> n.files[p] == t.files[p])
    decreases |order|
  {
    if order != [] {
      var dir, m := p[..|p| - 1], PruneDir(t, order[0]);
      PruneDirExactly(t, order[0], p);
      PruneOutsideExactly(m, order[1..], p);
      if dir != [] { SourcesStand(t, order[0], dir); }
      assert dir in order <==> dir == order[0] || dir in order[1..];
    }
  }

  lemma {:induction false} PruneKeepsTheRest(t: Tree, order: seq<Path>, p: Path)
    requires BelowThumbs(order) && p != [] && !IsPlatePath(p)
    ensures var n := Prune(t, order);
            (p in n.files <==> p in t.files) && (p in t.files ==> n.files[p] == t.files[p])
    decreases |order|
  {
    if order != [] {
      PruneDirExactly(t, order[0], p);
      assert p[..|p| - 1] == order[0] ==> |p| >= 2 && p[0] == THUMBS;
      PruneKeepsTheRest(PruneDir(t, order[0]), order[1..], p);
    }
  }

  // ---------------------------------------------------------------- names round trip

  lemma ExtensionChars(name: string)
    requires IsArchiveName(name)
    ensures var n := |name| - 4;
            && n >= 0 && name[n] == '.' && name[n + 1] == '3'
            && LowerChar(name[n + 2]) == 'm' && LowerChar(name[n + 3]) == 'f'
  {
  }

  lemma LastDotIs(name: string, n: nat)
    requires n < |name| && name[n] == '.' && forall k :: n < k < |name| ==> name[k] != '.'
    ensures LastDot(name) == n
  {
  }

  lemma ArchiveStem(name: string)
    requires IsArchiveName(name)
    ensures |name| >= 4
    ensures Stem(name) == if OnlyDots(name[..|name| - 4]) then name else name[..|name| - 4]
  {
    ExtensionChars(name);
    LastDotIs(name, |name| - 4);
  }

  /** Nothing but dots stands before the four characters of the extension. */
  predicate DotsAlone(name: string) { forall i :: 0 <= i < |name| - 4 ==> name[i] == '.' }

  /** An archive's name ends in `.3mf`, in either case. */
  lemma ArchiveNameExactly(name: string)
    ensures IsArchiveName(name) <==>
            var n := |name|;
            n >= 4 && name[n - 4] == '.' && name[n - 3] == '3' && name[n - 2] in {'m', 'M'} && name[n - 1] in {'f', 'F'}
  {
    var n := |name|;
    if n >= 4 {
      var l := Lower(name)[n - 4..];
      assert l == [LowerChar(name[n - 4]), LowerChar(name[n - 3]), LowerChar(name[n - 2]), LowerChar(name[n - 1])];
      assert ".3mf" == ['.', '3', 'm', 'f'];
    }
  }

  /** Two characters are equal, or the same letter in two cases. */
  predicate SameLetter(a: char, b: char) {
    || a == b
    || ('A' <= a <= 'Z' && b as int == a as int + 32)
    || ('A' <= b <= 'Z' && a as int == b as int + 32)
  }

  lemma LowerForgetsCase(a: char, b: char)
    ensures LowerChar(a) == LowerChar(b) <==> SameLetter(a, b)
  {
  }

  /** Names are compared but for the case of their letters. */
  lemma LowerComparesNames(a: string, b: string)
    ensures Lower(a) == Lower(b) <==> |a| == |b| && forall i :: 0 <= i < |a| ==> SameLetter(a[i], b[i])
  {
    if |a| == |b| {
      forall i | 0 <= i < |a| ensures Lower(a)[i] == Lower(b)[i] <==> SameLetter(a[i], b[i]) {
        LowerForgetsCase(a[i], b[i]);
      }
    }
  }

  /** The walk takes every file named like an archive whose directories are not hidden. */
  lemma WalkTakesExactly(t: Tree, p: Path)
    ensures IsArchive(t, p) <==>
            p != [] && p in t.files && IsArchiveName(p[|p| - 1])
            && forall i :: 0 <= i < |p| - 1 ==> p[i] == "" || p[i][0] != '.'
  {
  }

  /** A stem with a character other than a dot gives its archive's name back, but for case. */
  lemma StemGivesNameBack(name: string)
    requires IsArchiveName(name)
    ensures |name| >= 4
    ensures !DotsAlone(name) ==> Lower(Stem(name) + ".3mf") == Lower(name)
    ensures DotsAlone(name) ==> Stem(name) == name
  {
    ArchiveStem(name);
    ArchiveNameExactly(name);
    var n, back := |name| - 4, name[..|name| - 4] + ".3mf";
    assert back[n] == '.' && back[n + 1] == '3' && back[n + 2] == 'm' && back[n + 3] == 'f';
    forall i | 0 <= i < |name| ensures SameLetter(back[i], name[i]) {
      if i < n { assert back[i] == name[i]; }
    }
    LowerComparesNames(back, name);
  }

  lemma MirrorOfThumbs(t: Tree, a: Path)
    requires IsArchive(t, a)
    ensures MirrorsOutside(ThumbDir(a)) && Mirror(ThumbDir(a)) == a[..|a| - 1]
    ensures ThumbDir(a)[|ThumbDir(a)| - 1] == Stem(a[|a| - 1])
  {
    var d, dir := a[..|a| - 1], ThumbDir(a);
    if d != [] {
      assert dir[1..|dir| - 1] == d;
      assert a[0] == d[0] && !Hidden(a[0]);
    }
  }

  /** A present archive's thumbnails find their source exactly if its stem holds more than dots,
      or another entry there bears its whole name with the extension once more. */
  lemma PresentArchivesAreFound(t: Tree, a: Path)
    requires IsArchive(t, a)
    ensures var d, name := a[..|a| - 1], a[|a| - 1];
            && MirrorsOutside(ThumbDir(a)) && Mirror(ThumbDir(a)) == d
            && (SourceExists(t, ThumbDir(a)) <==>
                !DotsAlone(name) || exists n :: n in Entries(t, d) && Lower(n) == Lower(name + ".3mf"))
  {
    var d, name := a[..|a| - 1], a[|a| - 1];
    StemGivesNameBack(name);
    MirrorOfThumbs(t, a);
    FoundBy(t, ThumbDir(a), d, Stem(name));
    EntryAt(t, d, name);
    assert d + [name] == a;
    if !DotsAlone(name) { assert name in Entries(t, d) && Lower(name) == Lower(Stem(name) + ".3mf"); }
  }

  lemma FoundBy(t: Tree, dir: Path, d: Path, stem: string)
    requires dir != [] && Mirror(dir) == d && dir[|dir| - 1] == stem
    ensures SourceExists(t, dir) <==> exists n :: n in Entries(t, d) && Lower(n) == Lower(stem + ".3mf")
  {
  }

  lemma PlatesOf(a: Path, k: nat)
    requires a != []
    ensures var p := ThumbPath(a, k); p != [] && p[..|p| - 1] == ThumbDir(a) && IsPlateFile(p[|p| - 1])
  {
    PlateNamesArePlates(k);
  }

  /** Pruning keeps a present archive's thumbnail exactly under that condition, or unvisited. */
  lemma PresentArchivesKeepTheirPlates(t: Tree, order: seq<Path>, a: Path, k: nat)
    requires BelowThumbs(order) && IsArchive(t, a) && ThumbPath(a, k) in t.files
    ensures ThumbPath(a, k) in Prune(t, order).files <==> SourceExists(t, ThumbDir(a)) || ThumbDir(a) !in order
  {
    PlatesOf(a, k);
    PresentArchivesAreFound(t, a);
    PruneOutsideExactly(t, order, ThumbPath(a, k));
  }

  // ---------------------------------------------------------------- a run, and the next one

  lemma {:induction false} PruneKeepsSources(t: Tree, order: seq<Path>, other: Path)
    requires BelowThumbs(order) && other != [] && MirrorsOutside(other)
    ensures SourceExists(Prune(t, order), other) <==> SourceExists(t, other)
    decreases |order|
  {
    if order != [] {
      SourcesStand(t, order[0], other);
      PruneKeepsSources(PruneDir(t, order[0]), order[1..], other);
    }
  }

  /** `order` visits every directory that holds plates. */
  predicate VisitsAllPlates(t: Tree, order: seq<Path>) {
    forall p :: p in t.files && IsPlatePath(p) ==> p[..|p| - 1] in order
  }

  /** No plates below a `.thumbs` inside `.thumbs`. */
  predicate NotNested(t: Tree) { forall p :: p in t.files && IsPlatePath(p) ==> MirrorsOutside(p[..|p| - 1]) }

  /** After a prune every plate left in a directory it visited has its archive, or an entry named
      like one, in the mirrored directory. */
  lemma EveryPlateLeftHasASource(t: Tree, order: seq<Path>, p: Path)
    requires BelowThumbs(order) && p in Prune(t, order).files && IsPlatePath(p)
    requires p[..|p| - 1] in order && MirrorsOutside(p[..|p| - 1])
    ensures SourceExists(Prune(t, order), p[..|p| - 1]) && p in t.files
  {
    PrunedWasThere(t, order, p);
    var dir := p[..|p| - 1];
    PruneOutsideExactly(t, order, p);
    PruneKeepsSources(t, order, dir);
  }

  lemma {:induction false} PrunedWasThere(t: Tree, order: seq<Path>, p: Path)
    requires BelowThumbs(order) && p != [] && p in Prune(t, order).files
    ensures p in t.files
    decreases |order|
  {
    if order != [] {
      PrunedWasThere(PruneDir(t, order[0]), order[1..], p);
      PruneDirExactly(t, order[0], p);
    }
  }

  lemma {:induction false} NewFilesAreThumbs(t: Tree, order: seq<Path>, now: int, p: Path)
    requires forall i :: 0 <= i < |order| ==> order[i] != []
    requires p in ExtractAll(t, order, now).files && p !in t.files
    ensures exists i :: 0 <= i < |order| && IsThumbOf(order[i], p)
    decreases |order|
  {
    var m := Extract(t, order[0], now);
    ExtractTouchesItsPlatesOnly(t, order[0], now);
    if p in m.files {
      assert IsThumbOf(order[0], p);
    } else {
      NewFilesAreThumbs(m, order[1..], now, p);
      var i :| 0 <= i < |order[1..]| && IsThumbOf(order[1..][i], p);
      assert IsThumbOf(order[i + 1], p);
    }
  }

  predicate AllArchives(t: Tree, order: seq<Path>) { forall i :: 0 <= i < |order| ==> IsArchive(t, order[i]) }

  lemma ThumbsAreNotNested(t: Tree, a: Path, p: Path)
    requires IsArchive(t, a) && IsThumbOf(a, p)
    ensures MirrorsOutside(p[..|p| - 1])
  {
  }

  lemma ExtractedIsNotNested(t: Tree, order: seq<Path>, now: int)
    requires AllArchives(t, order) && NotNested(t)
    ensures NotNested(ExtractThumbs(t, order, now))
  {
    var m, bad := ExtractAll(t, order, now), Unreadable(t, order, now);
    var e := ExtractAll(m, bad, now);
    forall p | p in e.files && IsPlatePath(p) ensures MirrorsOutside(p[..|p| - 1]) {
      if p !in m.files {
        NewFilesAreThumbs(m, bad, now, p);
        var i :| 0 <= i < |bad| && IsThumbOf(bad[i], p);
        assert bad[i] in order;
        ThumbsAreNotNested(t, bad[i], p);
      } else if p !in t.files {
        NewFilesAreThumbs(t, order, now, p);
        var i :| 0 <= i < |order| && IsThumbOf(order[i], p);
        ThumbsAreNotNested(t, order[i], p);
      }
    }
  }

  /** Pruning leaves an archive as settled as it was if its thumbnails find it. */
  lemma PruneKeepsSettled(e: Tree, order: seq<Path>, a: Path)
    requires BelowThumbs(order) && IsArchive(e, a) && SourceExists(e, ThumbDir(a))
    ensures var n := Prune(e, order); a in n.files && n.files[a] == e.files[a] && Jobs(n, a) == Jobs(e, a)
  {
    var n := Prune(e, order);
    ArchivesAreOutside(e, a);
    PruneKeepsTheRest(e, order, a);
    PresentArchivesAreFound(e, a);
    var f := e.files[a];
    if f.members.Some? {
      forall k: nat ensures Fresh(e, ThumbPath(a, k), f.mtime) <==> Fresh(n, ThumbPath(a, k), f.mtime) {
        PlatesOf(a, k);
        PruneOutsideExactly(e, order, ThumbPath(a, k));
      }
      PendingReadsItsPlates(e, n, a, f.mtime, f.members.value);
    }
  }

  lemma {:induction false} SettledPassIsIdle(t: Tree, order: seq<Path>, now: int)
    requires forall i :: 0 <= i < |order| ==> order[i] != [] && Settled(t, order[i])
    ensures ExtractAll(t, order, now) == t && WritesOfPass(t, order, now) == 0
    decreases |order|
  {
    if order != [] {
      assert Extract(t, order[0], now) == t;
      SettledPassIsIdle(t, order[1..], now);
    }
  }

  lemma {:induction false} SourcedPruneIsIdle(t: Tree, order: seq<Path>)
    requires BelowThumbs(order)
    requires forall i :: 0 <= i < |order| ==> Plates(t, order[i]) == {} || SourceExists(t, order[i])
    ensures Prune(t, order) == t && Removals(t, order) == 0
    decreases |order|
  {
    if order != [] { SourcedPruneIsIdle(t, order[1..]); }
  }

  /** Nothing outside `.thumbs` comes or goes. */
  ghost predicate SameOutside(t: Tree, u: Tree) {
    forall p: Path :: p != [] && p[0] != THUMBS ==> (p in t.files.Keys + t.dirs <==> p in u.files.Keys + u.dirs)
  }

  lemma SourcesFollow(t: Tree, u: Tree, dir: Path)
    requires SameOutside(t, u) && dir != [] && MirrorsOutside(dir)
    ensures SourceExists(t, dir) ==> SourceExists(u, dir)
  {
    var d, w := Mirror(dir), dir[|dir| - 1];
    if SourceExists(t, dir) {
      var x :| x in Entries(t, d) && Lower(x) == Lower(w + ".3mf");
      if x == THUMBS { DifferentEnds(x, w); }
      EntryAt(t, d, x);
      EntryAt(u, d, x);
      assert (d + [x])[0] == if d == [] then x else d[0];
    }
  }

  lemma {:induction false} WritesStayBelow(t: Tree, jobs: seq<Job>, now: int)
    requires forall j :: 0 <= j < |jobs| ==> jobs[j].dest != [] && jobs[j].dest[0] == THUMBS
    ensures SameOutside(t, WriteAll(t, jobs, now))
    decreases |jobs|
  {
    if jobs != [] {
      var m := WriteOne(t, jobs[0], now);
      forall p: Path | p != [] && p[0] != THUMBS
        ensures p in t.files.Keys + t.dirs <==> p in m.files.Keys + m.dirs
      {
      }
      WritesStayBelow(m, jobs[1..], now);
    }
  }

  lemma ExtractStaysBelow(t: Tree, a: Path, now: int)
    requires a != []
    ensures SameOutside(t, Extract(t, a, now))
  {
    if a in t.files && Jobs(t, a).Some? {
      JobsAreThumbs(t, a, t.files[a].mtime, t.files[a].members.value);
      WritesStayBelow(t, Jobs(t, a).value, now);
    }
  }

  lemma {:induction false} PassStaysBelow(t: Tree, order: seq<Path>, now: int)
    requires forall i :: 0 <= i < |order| ==> order[i] != []
    ensures SameOutside(t, ExtractAll(t, order, now))
    decreases |order|
  {
    if order != [] {
      ExtractStaysBelow(t, order[0], now);
      PassStaysBelow(Extract(t, order[0], now), order[1..], now);
    }
  }

  lemma RunKeepsSources(t: Tree, order: seq<Path>, now: int, dir: Path)
    requires (forall i :: 0 <= i < |order| ==> order[i] != []) && dir != [] && MirrorsOutside(dir)
    ensures SourceExists(ExtractThumbs(t, order, now), dir) <==> SourceExists(t, dir)
  {
    var m := ExtractAll(t, order, now);
    var bad := Unreadable(t, order, now);
    PassStaysBelow(t, order, now);
    PassStaysBelow(m, bad, now);
    var e := ExtractAll(m, bad, now);
    assert SameOutside(t, e) && SameOutside(e, t);
    SourcesFollow(t, e, dir);
    SourcesFollow(e, t, dir);
  }

  predicate HoldsPlates(f: File) {
    f.members.Some? && exists i :: 0 <= i < |f.members.value| && PlateOf(f.members.value[i]).Some?
  }

  lemma {:induction false} UnreadableStopsIt(t: Tree, archive: Path, mtime: int, ms: seq<Member>, i: nat)
    requires archive != [] && i < |ms| && PlateOf(ms[i]).Some? && !ms[i].readable
    requires !Fresh(t, ThumbPath(archive, PlateOf(ms[i]).value), mtime)
    ensures Pending(t, archive, mtime, ms) == None
    decreases |ms|
  {
    if i > 0 { UnreadableStopsIt(t, archive, mtime, ms[1..], i - 1); }
  }

  /** An archive with none of its thumbnails there has some to write exactly if it holds plates and
      every one can be read. */
  lemma BareSettledExactly(t: Tree, a: Path)
    requires a != [] && a in t.files && forall k: nat :: ThumbPath(a, k) !in t.files
    ensures Settled(t, a) <==> !(HoldsPlates(t.files[a]) && WhollyReadable(t.files[a]))
  {
    var f := t.files[a];
    if f.members.Some? {
      NothingPendingExactly(t, a, f.mtime, f.members.value);
      if WhollyReadable(f) {
        ReadableIsNeverBad(t, a, f.mtime, f.members.value);
      } else {
        var i :| 0 <= i < |f.members.value| && PlateOf(f.members.value[i]).Some? && !f.members.value[i].readable;
        UnreadableStopsIt(t, a, f.mtime, f.members.value, i);
      }
    }
  }

  lemma UnfoundPlatesGo(e: Tree, dirs: seq<Path>, a: Path)
    requires BelowThumbs(dirs) && VisitsAllPlates(e, dirs) && IsArchive(e, a) && !SourceExists(e, ThumbDir(a))
    ensures forall k: nat :: ThumbPath(a, k) !in Prune(e, dirs).files
  {
    PresentArchivesAreFound(e, a);
    forall k: nat ensures ThumbPath(a, k) !in Prune(e, dirs).files {
      PlatesOf(a, k);
      PruneOutsideExactly(e, dirs, ThumbPath(a, k));
    }
  }

  /** The prune takes the thumbnails of this archive away, and the next run writes them again: its
      name is dots and the extension, no entry bears that name with the extension once more, and
      it holds plates that can all be read. */
  predicate ComesBack(t: Tree, a: Path) {
    IsArchive(t, a) && !SourceExists(t, ThumbDir(a)) && HoldsPlates(t.files[a]) && WhollyReadable(t.files[a])
  }

  lemma PlateOneIsAPlate(m: Member)
    requires m.name == "Metadata/plate_1.png" && m.size <= MAX_PLATE_BYTES
    ensures PlateOf(m).Some?
  {
    assert m.name[15..|m.name| - 4] == "1";
    assert IsDigits("1");
  }

  lemma LoneEntry(f: File, x: string)
    ensures x in Entries(Tree(map[[".3mf"] := f], {}), []) ==> x == ".3mf"
  {
    EntryAt(Tree(map[[".3mf"] := f], {}), [], x);
    assert ([] + [x])[0] == x;
  }

  lemma LoneExtensionIsUnfound(f: File)
    ensures var t := Tree(map[[".3mf"] := f], {}); IsArchive(t, [".3mf"]) && !SourceExists(t, ThumbDir([".3mf"]))
  {
    var a: Path, name := [".3mf"], ".3mf";
    var t := Tree(map[a := f], {});
    ArchiveNameExactly(name);
    WalkTakesExactly(t, a);
    PresentArchivesAreFound(t, a);
    assert a[..0] == [] && DotsAlone(name);
    forall x | x in Entries(t, [])
      ensures Lower(x) != Lower(name + ".3mf")
    {
      LoneEntry(f, x);
      LowerComparesNames(x, name + ".3mf");
    }
  }

  /** A lone `.3mf` with one plate is such an archive. */
  lemma ALoneExtensionComesBack(mtime: int, data: string)
    ensures var f := File(mtime, "", Some([Member("Metadata/plate_1.png", 1, data, true)]));
            ComesBack(Tree(map[[".3mf"] := f], {}), [".3mf"])
  {
    var m := Member("Metadata/plate_1.png", 1, data, true);
    var f := File(mtime, "", Some([m]));
    PlateOneIsAPlate(m);
    LoneExtensionIsUnfound(f);
    assert f.members.value[0] == m;
  }

  /** What the first run wrote is older than this archive, so the next run writes it again. */
  predicate StaysStale(t: Tree, a: Path, now: int) {
    IsArchive(t, a) && SourceExists(t, ThumbDir(a)) && t.files[a].mtime > now && !Settled(t, a)
  }

  lemma SettledAfterRunExactly(t: Tree, order: seq<Path>, dirs: seq<Path>, now: int, a: Path)
    requires AllArchives(t, order) && a in order && a in t.files && Tidy(t, order, a, now)
    requires BelowThumbs(dirs) && VisitsAllPlates(ExtractThumbs(t, order, now), dirs)
    ensures var n := Prune(ExtractThumbs(t, order, now), dirs);
            a != [] && (Settled(n, a) <==> !ComesBack(t, a) && !StaysStale(t, a, now))
  {
    var e := ExtractThumbs(t, order, now);
    forall i | 0 <= i < |order| ensures Outside(order[i]) { ArchivesAreOutside(t, order[i]); }
    assert IsArchive(t, a);
    ARunSettlesExactly(t, order, a, now);
    assert IsArchive(e, a);
    PresentArchivesAreFound(e, a);
    RunKeepsSources(t, order, now, ThumbDir(a));
    if SourceExists(e, ThumbDir(a)) {
      PruneKeepsSettled(e, dirs, a);
    } else {
      PruneKeepsTheRest(e, dirs, a);
      UnfoundPlatesGo(e, dirs, a);
      BareSettledExactly(Prune(e, dirs), a);
    }
  }

  lemma {:induction false} UnsettledPassWrites(t: Tree, order: seq<Path>, now: int, i: nat)
    requires (forall j :: 0 <= j < |order| ==> order[j] != []) && i < |order| && !Settled(t, order[i])
    ensures WritesOfPass(t, order, now) > 0
    decreases |order|
  {
    if Settled(t, order[0]) {
      assert Extract(t, order[0], now) == t;
      UnsettledPassWrites(t, order[1..], now, i - 1);
    }
  }

  lemma PruneIsIdleAfterRun(t: Tree, order: seq<Path>, dirs: seq<Path>, now: int, dirs2: seq<Path>)
    requires AllArchives(t, order) && NotNested(t) && BelowThumbs(dirs2)
    requires BelowThumbs(dirs) && VisitsAllPlates(ExtractThumbs(t, order, now), dirs)
    ensures var n := Prune(ExtractThumbs(t, order, now), dirs); Prune(n, dirs2) == n && Removals(n, dirs2) == 0
  {
    var e := ExtractThumbs(t, order, now);
    var n := Prune(e, dirs);
    ExtractedIsNotNested(t, order, now);
    forall i | 0 <= i < |dirs2| ensures Plates(n, dirs2[i]) == {} || SourceExists(n, dirs2[i]) {
      if x :| x in Plates(n, dirs2[i]) {
        var p := dirs2[i] + [x];
        PlateAt(n, dirs2[i], x);
        assert p[..|p| - 1] == dirs2[i] && p[0] == dirs2[i][0] && p[|p| - 1] == x;
        PrunedWasThere(e, dirs, p);
        EveryPlateLeftHasASource(e, dirs, p);
      }
    }
    SourcedPruneIsIdle(n, dirs2);
  }

  predicate AllTidy(t: Tree, order: seq<Path>, now: int)
    requires AllArchives(t, order)
  {
    forall i :: 0 <= i < |order| ==> Tidy(t, order, order[i], now)
  }

  /** A second run writes nothing if and only if it visits no archive of dots whose thumbnails the
      prune takes away, and none newer than the clock of the first run that had thumbnails to
      write: where archives that share a thumbnail directory can be read in full and are not newer
      than the clock. It removes nothing where no plates lie below a nested `.thumbs`. The walks of
      the two runs may differ. */
  lemma SecondRunIsIdleExactly(t: Tree, order: seq<Path>, dirs: seq<Path>, now: int,
                               order2: seq<Path>, dirs2: seq<Path>, now2: int)
    requires AllArchives(t, order) && AllTidy(t, order, now)
    requires BelowThumbs(dirs) && VisitsAllPlates(ExtractThumbs(t, order, now), dirs)
    requires (forall i :: 0 <= i < |order2| ==> order2[i] in order) && BelowThumbs(dirs2)
    ensures var n := Prune(ExtractThumbs(t, order, now), dirs);
            && (ExtractThumbs(n, order2, now2) == n && WritesOfRun(n, order2, now2) == 0 <==>
                forall i :: 0 <= i < |order2| ==> !ComesBack(t, order2[i]) && !StaysStale(t, order2[i], now))
            && (NotNested(t) ==> Prune(n, dirs2) == n && Removals(n, dirs2) == 0)
  {
    var n := Prune(ExtractThumbs(t, order, now), dirs);
    if NotNested(t) { PruneIsIdleAfterRun(t, order, dirs, now, dirs2); }
    forall i | 0 <= i < |order2|
      ensures Settled(n, order2[i]) <==> !ComesBack(t, order2[i]) && !StaysStale(t, order2[i], now)
    {
      SettledAfterRunExactly(t, order, dirs, now, order2[i]);
    }
    if i :| 0 <= i < |order2| && (ComesBack(t, order2[i]) || StaysStale(t, order2[i], now)) {
      UnsettledPassWrites(n, order2, now2, i);
    } else {
      SettledPassIsIdle(n, order2, now2);
      SettledPassIsIdle(n, Unreadable(n, order2, now2), now2);
    }
  }

  /** What an extraction writes is fresh exactly if the archive is not newer than the clock. */
  lemma WrittenIsFreshExactly(t: Tree, a: Path, now: int, j: nat)
    requires a != [] && a in t.files && Jobs(t, a).Some? && j < |Jobs(t, a).value|
    ensures Fresh(Extract(t, a, now), Jobs(t, a).value[j].dest, t.files[a].mtime) <==> t.files[a].mtime <= now
  {
    WritesExactly(t, Jobs(t, a).value, now, Jobs(t, a).value[j].dest);
  }

  // ---------------------------------------------------------------- the script

  function After(jobs: seq<Job>, rest: Option<seq<Job>>): (r: Option<seq<Job>>)
    ensures jobs == [] ==> r == rest
    ensures rest == Some([]) ==> r == Some(jobs)
  {
    match rest
    case None => None
    case Some(more) =>
      assert jobs == [] ==> jobs + more == more;
      assert more == [] ==> jobs + more == jobs;
      Some(jobs + more)
  }

  lemma PendingStep(t: Tree, archive: Path, mtime: int, ms: seq<Member>, i: nat, jobs: seq<Job>)
    requires archive != [] && i < |ms|
    ensures var plate, here := PlateOf(ms[i]), Pending(t, archive, mtime, ms[i..]);
            var rest := Pending(t, archive, mtime, ms[i + 1..]);
            if plate.None? || Fresh(t, ThumbPath(archive, plate.value), mtime) then here == rest
            else if !ms[i].readable then here == None
            else After(jobs, here) == After(jobs + [Job(ThumbPath(archive, plate.value), ms[i].data)], rest)
  {
    assert ms[i..][0] == ms[i] && ms[i..][1..] == ms[i + 1..];
    var rest := Pending(t, archive, mtime, ms[i + 1..]);
    var plate := PlateOf(ms[i]);
    if plate.Some? && rest.Some? {
      var job := [Job(ThumbPath(archive, plate.value), ms[i].data)];
      assert jobs + (job + rest.value) == (jobs + job) + rest.value;
    }
  }

  class Gcodes {
    var files: map<Path, File>
    var dirs: set<Path>

    ghost function View(): Tree
      reads this
    { Tree(files, dirs) }

    constructor (files: map<Path, File>, dirs: set<Path>)
      ensures View() == Tree(files, dirs)
    {
      this.files, this.dirs := files, dirs;
    }

    method ReadPlates(archive: Path) returns (jobs: seq<Job>, unreadable: bool)
      requires archive != [] && archive in files
      ensures unreadable <==> Jobs(View(), archive) == None
      ensures !unreadable ==> Jobs(View(), archive) == Some(jobs)
    {
      jobs := [];
      var f := files[archive];
      if f.members.None? { return [], true; }
      var ms := f.members.value;
      assert ms[0..] == ms;
      for i := 0 to |ms|
        invariant Pending(View(), archive, f.mtime, ms) == After(jobs, Pending(View(), archive, f.mtime, ms[i..]))
      {
        PendingStep(View(), archive, f.mtime, ms, i, jobs);
        var plate := PlateOf(ms[i]);
        if plate.None? { continue; }
        var dest := ThumbPath(archive, plate.value);
        if dest in files && files[dest].mtime >= f.mtime { continue; }
        if !ms[i].readable { return [], true; }
        jobs := jobs + [Job(dest, ms[i].data)];
      }
      return jobs, false;
    }

    method ExtractFile(archive: Path, now: int) returns (wrote: nat, unreadable: bool)
      requires archive != []
      modifies this
      ensures View() == Extract(old(View()), archive, now)
      ensures unreadable <==> archive !in old(files) || Jobs(old(View()), archive) == None
      ensures wrote == Writes(old(View()), archive)
    {
      if archive !in files { return 0, true; }
      var jobs;
      jobs, unreadable := ReadPlates(archive);
      if unreadable { return 0, true; }
      for i := 0 to |jobs|
        invariant WriteAll(old(View()), jobs, now) == WriteAll(View(), jobs[i..], now)
      {
        assert jobs[i..][0] == jobs[i] && jobs[i..][1..] == jobs[i + 1..];
        dirs := dirs + Parents(jobs[i].dest);
        files := files[jobs[i].dest := File(now, jobs[i].data, None)];
      }
      return |jobs|, false;
    }

    method ExtractPass(order: seq<Path>, now: int) returns (wrote: nat, bad: seq<Path>)
      requires forall i :: 0 <= i < |order| ==> order[i] != []
      modifies this
      ensures View() == ExtractAll(old(View()), order, now)
      ensures wrote == WritesOfPass(old(View()), order, now) && bad == Unreadable(old(View()), order, now)
    {
      wrote, bad := 0, [];
      ghost var t := View();
      assert order[0..] == order;
      for i := 0 to |order|
        invariant ExtractAll(t, order, now) == ExtractAll(View(), order[i..], now)
        invariant WritesOfPass(t, order, now) == wrote + WritesOfPass(View(), order[i..], now)
        invariant Unreadable(t, order, now) == bad + Unreadable(View(), order[i..], now)
      {
        ghost var s, was, rest := View(), bad, order[i + 1..];
        PassTakes(s, order, i, now);
        var w, u := ExtractFile(order[i], now);
        wrote := wrote + w;
        if u { bad := bad + [order[i]]; }
        assert bad + Unreadable(View(), rest, now) ==
               was + ((if u then [order[i]] else []) + Unreadable(View(), rest, now));
      }
    }

    method ExtractAllThumbs(order: seq<Path>, now: int) returns (wrote: nat)
      requires forall i :: 0 <= i < |order| ==> order[i] != []
      modifies this
      ensures View() == ExtractThumbs(old(View()), order, now)
      ensures wrote == WritesOfRun(old(View()), order, now)
    {
      var bad;
      wrote, bad := ExtractPass(order, now);
      var again, _ := ExtractPass(bad, now);
      wrote := wrote + again;
    }

    method HasSource(dir: Path) returns (found: bool)
      requires dir != []
      ensures found <==> SourceExists(View(), dir)
    {
      var wanted := Lower(dir[|dir| - 1] + ".3mf");
      var names := Entries(Tree(files, dirs), Mirror(dir));
      while names != {}
        invariant names <= Entries(View(), Mirror(dir))
        invariant forall n :: n in Entries(View(), Mirror(dir)) - names ==> Lower(n) != wanted
        decreases names
      {
        var n :| n in names;
        if Lower(n) == wanted { return true; }
        names := names - {n};
      }
      return false;
    }

    method PruneThumbs(order: seq<Path>) returns (removed: nat)
      requires BelowThumbs(order)
      modifies this
      ensures View() == Prune(old(View()), order) && removed == Removals(old(View()), order)
    {
      removed := 0;
      assert order[0..] == order;
      for i := 0 to |order|
        invariant Prune(old(View()), order) == Prune(View(), order[i..])
        invariant Removals(old(View()), order) == removed + Removals(View(), order[i..])
      {
        var dir := order[i];
        assert order[i..][0] == dir && order[i..][1..] == order[i + 1..];
        var plates := Plates(Tree(files, dirs), dir);
        if plates == {} { continue; }
        var found := HasSource(dir);
        if found { continue; }
        files := files - (set n | n in plates :: dir + [n]);
        removed := removed + |plates|;
        if Entries(Tree(files, dirs), dir) == {} { dirs := dirs - {dir}; }
      }
    }
  }
}
