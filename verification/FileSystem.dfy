/** A filesystem shared with other processes, and the file helpers of the migration kernel.

    Every call first lets the other processes act and may then fail, as told by `fate`; nothing is
    known about `fate`, so a contract proved here holds for every interleaving and every fault. */
module FileSystem {
  import opened Bits
  import opened Prelude

  type Path = string
  type FileBytes = b: Bytes | |b| < U64_LIMIT witness []

  datatype IoError = AlreadyExists | NotFound | OtherIo

  /** A file, and whether the running job created it. */
  datatype Entry = Entry(bytes: FileBytes, ours: bool)

  /** What happens around one call: files others write and remove, whether the call itself fails, and
      how much a failing copy still writes. */
  datatype Fate = Fate(put: map<Path, FileBytes>, gone: set<Path>, fails: bool, written: nat)

  /** A digest computed by absorbing bytes one after the other. */
  datatype Hasher<!S> = Hasher(init: S, absorb: (S, byte) -> S, finish: S -> string)

  function Update<S>(h: Hasher<S>, s: S, bytes: Bytes): S {
    if bytes == [] then s else Update(h, h.absorb(s, bytes[0]), bytes[1..])
  }

  function Digest<S>(h: Hasher<S>, bytes: Bytes): string {
    h.finish(Update(h, h.init, bytes))
  }

  lemma NothingAbsorbed<S>(h: Hasher<S>, bytes: Bytes)
    ensures Update(h, h.init, bytes[..0]) == h.init
  {
  }

  /** Absorbing in chunks is absorbing the concatenation. */
  lemma {:induction false} UpdateConcat<S>(h: Hasher<S>, s: S, a: Bytes, b: Bytes)
    ensures Update(h, Update(h, s, a), b) == Update(h, s, a + b)
  {
    if a == [] {
      assert a + b == b;
    } else {
      assert (a + b)[1..] == a[1..] + b;
      UpdateConcat(h, h.absorb(s, a[0]), a[1..], b);
    }
  }

  /** The files of the job, or those of the other processes. */
  function Part(files: map<Path, Entry>, ours: bool): map<Path, FileBytes> {
    map p | p in files && files[p].ours == ours :: files[p].bytes
  }

  /** The other processes create, overwrite and remove files, but not those the job has made, and
      none under its staging names. */
  function OthersAct(files: map<Path, Entry>, f: Fate, reserved: set<Path>): map<Path, Entry> {
    var kept := map p | p in files && (files[p].ours || p !in f.gone) :: files[p];
    var put := map p | p in f.put && p !in reserved && (p in files ==> !files[p].ours) :: Entry(f.put[p], false);
    kept + put
  }

  /** Nobody else acts and nothing fails. */
  predicate Quiet(f: Fate) {
    f.put == map[] && f.gone == {} && !f.fails
  }

  lemma QuietActs(files: map<Path, Entry>, f: Fate, reserved: set<Path>)
    ensures Quiet(f) ==> OthersAct(files, f, reserved) == files
  {
  }

  lemma PartPut(files: map<Path, Entry>, p: Path, b: FileBytes)
    ensures Part(files[p := Entry(b, true)], true) == Part(files, true)[p := b]
    ensures p !in Part(files, false) ==> Part(files[p := Entry(b, true)], false) == Part(files, false)
  {
  }

  lemma PartRemove(files: map<Path, Entry>, p: Path, ours: bool)
    ensures Part(files - {p}, ours) == Part(files, ours) - {p}
  {
  }

  function Lookup(m: map<Path, FileBytes>, p: Path): Option<FileBytes> {
    if p in m then Some(m[p]) else None
  }

  /** What the other processes make of one path. */
  function After(before: Option<FileBytes>, f: Fate, p: Path): Option<FileBytes> {
    if p in f.put then Some(f.put[p]) else if p in f.gone then None else before
  }

  lemma OthersActOn(files: map<Path, Entry>, f: Fate, reserved: set<Path>, p: Path)
    requires p !in reserved && (p in files ==> !files[p].ours)
    ensures Lookup(Part(OthersAct(files, f, reserved), false), p) == After(Lookup(Part(files, false), p), f, p)
  {
  }

  lemma OthersActFacts(files: map<Path, Entry>, f: Fate, reserved: set<Path>)
    ensures var after := OthersAct(files, f, reserved);
      && Part(after, true) == Part(files, true)
      && (forall p :: p in files && p !in f.put && p !in f.gone ==> p in after && after[p] == files[p])
      && (forall p :: p in after && !after[p].ours && p in reserved ==> p in files && !files[p].ours)
  {
  }

  /** Nothing but the two staging files is gone, and nothing is changed. */
  predicate CleanedUp(before: map<Path, FileBytes>, after: map<Path, FileBytes>, a: Path, b: Path) {
    && (forall p :: p in after ==> p in before && after[p] == before[p])
    && (forall p :: p in before && p != a && p != b ==> p in after)
  }

  class Disk {
    const fate: nat -> Fate
    const removalsWork: bool
    /** The staging names of the running job: no other process uses them. */
    const reserved: set<Path>
    /** The files when the job began. */
    ghost const base: map<Path, FileBytes>
    var clock: nat
    var files: map<Path, Entry>
    /** The files of the other processes. */
    ghost var theirs: map<Path, FileBytes>
    /** The other paths at which the job has created a file, whether or not it is still there. */
    ghost var created: set<Path>

    /** What the other processes, left to themselves, have made of a path by time `k`. No method has a say
        in this: it is a function of the files when the job began and of what the others do. */
    ghost function PathAt(p: Path, k: nat): Option<FileBytes> {
      if k == 0 then Lookup(base, p) else After(PathAt(p, k - 1), fate(k - 1), p)
    }

    /** The path had these bytes at some time from `from` to `to`. */
    ghost predicate Had(p: Path, from: nat, to: nat, bytes: FileBytes) {
      exists k :: from <= k <= to && PathAt(p, k) == Some(bytes)
    }

    ghost predicate AlwaysThere(p: Path, to: nat) {
      forall k :: 0 <= k <= to ==> PathAt(p, k).Some?
    }

    /** No other process ever touches the path. */
    ghost predicate LeftAlone(p: Path) {
      forall k :: p !in fate(k).put && p !in fate(k).gone
    }

    /** The files `m` of the other processes are exactly what they themselves have made of them by time `k`,
        save at the paths `made` that were free at some time and at which the job then created a file; even
        there a file of the others has bytes they gave it. */
    ghost predicate AsTheyMadeIt(m: map<Path, FileBytes>, made: set<Path>, k: nat) {
      && (forall p :: p !in reserved && p !in made ==> Lookup(m, p) == PathAt(p, k))
      && (forall p :: p in made ==> !AlwaysThere(p, k))
      && (forall p :: p in m ==> Had(p, 0, k, m[p]))
    }

    ghost predicate Valid()
      reads this
    {
      && theirs == Part(files, false)
      && theirs.Keys !! reserved && base.Keys !! reserved
      && Ours().Keys <= reserved + created
      && AsTheyMadeIt(theirs, created, clock)
    }

    /** Every file that existed when the job began and that no other process touches is as it was. */
    ghost predicate BaseKept()
      reads this
    {
      forall p :: p in base && LeftAlone(p) ==> p in theirs && theirs[p] == base[p]
    }

    lemma {:induction false} StaysAsItWas(p: Path, k: nat)
      requires p in base && LeftAlone(p)
      ensures PathAt(p, k) == Some(base[p])
    {
      if k > 0 {
        StaysAsItWas(p, k - 1);
      }
    }

    lemma BaseIsKept(m: map<Path, FileBytes>, made: set<Path>, k: nat, p: Path)
      requires AsTheyMadeIt(m, made, k) && base.Keys !! reserved && p in base && LeftAlone(p)
      ensures p in m && m[p] == base[p]
    {
      forall j | 0 <= j <= k
        ensures PathAt(p, j) == Some(base[p])
      {
        StaysAsItWas(p, j);
      }
      assert Lookup(m, p) == PathAt(p, k);
    }

    lemma ValidKeepsBase()
      requires Valid()
      ensures BaseKept()
    {
      forall p | p in base && LeftAlone(p)
        ensures p in theirs && theirs[p] == base[p]
      {
        BaseIsKept(theirs, created, clock, p);
      }
    }

    /** One round of the other processes, told path by path: it skips the paths that are the job's. */
    lemma RoundKeeps(m: map<Path, FileBytes>, m': map<Path, FileBytes>, made: set<Path>, k: nat)
      requires AsTheyMadeIt(m, made, k)
      requires forall p :: (p !in reserved && p !in made) || p in m' ==>
        Lookup(m', p) == After(Lookup(m, p), fate(k), p)
      ensures AsTheyMadeIt(m', made, k + 1)
    {
      forall p | p in m'
        ensures Had(p, 0, k + 1, m'[p])
      {
        if p in fate(k).put {
          assert PathAt(p, k + 1) == Some(m'[p]);
        } else {
          assert p in m && Had(p, 0, k, m[p]);
        }
      }
    }

    lemma OthersStep(before: map<Path, Entry>, made: set<Path>, k: nat)
      requires AsTheyMadeIt(Part(before, false), made, k)
      requires Part(before, false).Keys !! reserved && Part(before, true).Keys <= reserved + made
      ensures AsTheyMadeIt(Part(OthersAct(before, fate(k), reserved), false), made, k + 1)
    {
      hide AsTheyMadeIt, After, Lookup;
      var after := OthersAct(before, fate(k), reserved);
      var m, m' := Part(before, false), Part(after, false);
      forall p | (p !in reserved && p !in made) || p in m'
        ensures Lookup(m', p) == After(Lookup(m, p), fate(k), p)
      {
        assert p in before && before[p].ours ==> p in Part(before, true) && p !in m';
        OthersActFacts(before, fate(k), reserved);
        OthersActOn(before, fate(k), reserved, p);
      }
      RoundKeeps(m, m', made, k);
    }

    /** A free path at which the job creates a file. */
    lemma CreationKeeps(p: Path)
      requires AsTheyMadeIt(theirs, created, clock) && p !in reserved && p !in theirs
      ensures AsTheyMadeIt(theirs, created + {p}, clock)
    {
      if p !in created {
        assert Lookup(theirs, p) == PathAt(p, clock);
      }
    }

    /** From now on nobody else acts and no call fails. Then every result is determined. */
    ghost predicate Calm()
      reads this
    {
      forall k :: k >= clock ==> Quiet(fate(k))
    }

    /** The file is on disk. */
    ghost predicate OnDisk(p: Path)
      reads this
    {
      p in Ours() || p in theirs
    }

    ghost function Content(p: Path): FileBytes
      requires OnDisk(p)
      reads this
    {
      if p in Ours() then Ours()[p] else theirs[p]
    }

    /** The files the job has created. */
    ghost function Ours(): map<Path, FileBytes>
      reads this
    {
      Part(files, true)
    }

    constructor (files: map<Path, FileBytes>, fate: nat -> Fate, removalsWork: bool, reserved: set<Path>)
      requires files.Keys !! reserved
      ensures Valid() && Ours() == map[] && base == files && theirs == files && clock == 0 && created == {}
      ensures this.fate == fate && this.removalsWork == removalsWork && this.reserved == reserved
    {
      this.fate, this.removalsWork, this.reserved, this.clock := fate, removalsWork, reserved, 0;
      this.files := map p | p in files :: Entry(files[p], false);
      this.base, this.theirs, this.created := files, files, {};
      new;
      assert forall p :: p in theirs ==> PathAt(p, 0) == Some(theirs[p]);
    }

    /** The other processes act: they cannot touch the job's own files or use its staging names. */
    method Interfere() returns (f: Fate)
      requires Valid()
      modifies this
      ensures Valid() && BaseKept() && clock == old(clock) + 1 && created == old(created)
      ensures Ours() == old(Ours())
      ensures f == fate(old(clock))
      ensures old(Calm()) ==> Calm() && theirs == old(theirs) && !f.fails
    {
      hide AsTheyMadeIt;
      f := fate(clock);
      assert old(Calm()) ==> Quiet(f);
      OthersActFacts(files, f, reserved);
      QuietActs(files, f, reserved);
      OthersStep(files, created, clock);
      files := OthersAct(files, f, reserved);
      theirs := Part(files, false);
      clock := clock + 1;
      ValidKeepsBase();
    }

    /** Any call that only looks, and may fail. */
    method Probe() returns (r: Option<IoError>)
      requires Valid()
      modifies this
      ensures Valid() && BaseKept() && clock == old(clock) + 1 && created == old(created)
      ensures Ours() == old(Ours())
      ensures old(Calm()) ==> Calm() && theirs == old(theirs) && r == None
    {
      var f := Interfere();
      r := if f.fails then Some(OtherIo) else None;
    }

    method Exists(p: Path) returns (b: bool)
      requires Valid()
      modifies this
      ensures Valid() && BaseKept() && clock == old(clock) + 1 && created == old(created)
      ensures Ours() == old(Ours())
      ensures b <==> OnDisk(p)
      ensures old(Calm()) ==> Calm() && theirs == old(theirs)
    {
      var _ := Interfere();
      b := p in files;
    }

    /** `create_new`: never opens an existing file. */
    method CreateNew(p: Path) returns (r: Option<IoError>)
      requires Valid()
      modifies this
      ensures Valid() && BaseKept() && clock == old(clock) + 1
      ensures created == if r == None && p !in reserved then old(created) + {p} else old(created)
      ensures p !in reserved && p !in old(created) ==> (r == Some(AlreadyExists) <==> PathAt(p, clock).Some?)
      ensures p in old(Ours()) ==> r == Some(AlreadyExists)
      ensures r.Some? ==> Ours() == old(Ours())
      ensures r == None ==> Ours() == old(Ours())[p := []]
      ensures r == Some(AlreadyExists) <==> old(p in Ours()) || p in theirs
      ensures old(Calm()) ==> Calm() && theirs == old(theirs) && (r == None <==> !old(OnDisk(p)))
    {
      var f := Interfere();
      if p in files {
        return Some(AlreadyExists);
      }
      if f.fails {
        return Some(OtherIo);
      }
      PartPut(files, p, []);
      files := files[p := Entry([], true)];
      if p !in reserved {
        CreationKeeps(p);
        created := created + {p};
      }
      return None;
    }

    /** Removes a file of the job, or a leftover under one of its staging names. */
    method RemoveFile(p: Path) returns (r: Option<IoError>)
      requires Valid()
      requires p in Ours() || p in reserved
      modifies this
      ensures Valid() && BaseKept() && clock == old(clock) + 1 && created == old(created)
      ensures p !in old(Ours()) ==> r == Some(NotFound)
      ensures removalsWork && p in old(Ours()) ==> r == None
      ensures Ours() == if r == None then old(Ours()) - {p} else old(Ours())
      ensures old(Calm()) ==> Calm() && theirs == old(theirs) && (r == None <==> p in old(Ours()))
    {
      var f := Interfere();
      if p !in files {
        return Some(NotFound);
      }
      if f.fails && !removalsWork {
        return Some(OtherIo);
      }
      PartRemove(files, p, true);
      PartRemove(files, p, false);
      files := files - {p};
      assert theirs - {p} == theirs;
      return None;
    }

    method Read(p: Path) returns (r: Result<FileBytes, IoError>)
      requires Valid()
      modifies this
      ensures Valid() && BaseKept() && clock == old(clock) + 1 && created == old(created)
      ensures Ours() == old(Ours())
      ensures r.Ok? && p !in reserved + created ==> Had(p, old(clock), clock, r.value)
      ensures r.Ok? ==> if p in old(Ours()) then r.value == old(Ours())[p] else p in theirs && r.value == theirs[p]
      ensures p in old(Ours()) ==> (r.Ok? <==> !fate(old(clock)).fails)
      ensures old(Calm()) ==> Calm() && theirs == old(theirs) && (r.Ok? <==> OnDisk(p))
    {
      var f := Interfere();
      if p !in files {
        return Err(NotFound);
      }
      if f.fails {
        return Err(OtherIo);
      }
      assert p !in reserved + created ==> p in theirs && PathAt(p, clock) == Some(theirs[p]);
      return Ok(files[p].bytes);
    }

    method Size(p: Path) returns (r: Result<nat, IoError>)
      requires Valid()
      modifies this
      ensures Valid() && BaseKept() && clock == old(clock) + 1 && created == old(created)
      ensures Ours() == old(Ours())
      ensures r.Ok? ==> if p in old(Ours()) then r.value == |old(Ours())[p]| else p in theirs && r.value == |theirs[p]|
      ensures old(Calm()) ==> Calm() && theirs == old(theirs) && (r.Ok? <==> OnDisk(p))
    {
      var f := Interfere();
      if p !in files {
        return Err(NotFound);
      }
      if f.fails {
        return Err(OtherIo);
      }
      return Ok(|files[p].bytes|);
    }

    /** Writes `bytes` to a file of the job and flushes it; a failing write leaves a prefix. */
    method WriteAll(p: Path, bytes: FileBytes) returns (r: Option<IoError>)
      requires Valid() && p in Ours()
      modifies this
      ensures Valid() && BaseKept() && clock == old(clock) + 1 && created == old(created)
      ensures r == None ==> Ours() == old(Ours())[p := bytes]
      ensures r.Some? ==> exists k: nat :: k <= |bytes| && Ours() == old(Ours())[p := bytes[..k]]
      ensures old(Calm()) ==> Calm() && theirs == old(theirs) && r == None
    {
      var f := Interfere();
      if f.fails {
        var k := if f.written <= |bytes| then f.written else |bytes|;
        PartPut(files, p, bytes[..k]);
        files := files[p := Entry(bytes[..k], true)];
        assert Ours() == old(Ours())[p := bytes[..k]];
        return Some(OtherIo);
      }
      PartPut(files, p, bytes);
      files := files[p := Entry(bytes, true)];
      return None;
    }

    /** Opens a staging name for writing: creates the file, or empties it. */
    method Truncate(p: Path)
      requires Valid() && p in reserved
      modifies `files
      ensures Valid() && Ours() == old(Ours())[p := []]
    {
      PartPut(files, p, []);
      files := files[p := Entry([], true)];
    }

    /** `fs::copy` onto a staging name: creates or truncates the target. */
    method CopyToStage(from: Path, to: Path) returns (r: Option<IoError>)
      requires Valid() && to in reserved
      modifies this
      ensures Valid() && BaseKept() && old(clock) <= clock && created == old(created)
      ensures r.Some? && to !in Ours() ==> Ours() == old(Ours())
      ensures to in Ours() ==> Ours() == old(Ours())[to := Ours()[to]]
      ensures r == None ==> to in Ours()
      ensures r == None && from !in reserved + created ==> Had(from, old(clock), clock, Ours()[to])
      ensures old(Calm()) ==> Calm() && theirs == old(theirs) && (r == None <==> old(OnDisk(from)))
      ensures old(Calm()) && r == None && from in theirs && from !in old(Ours()) ==> Ours()[to] == theirs[from]
    {
      hide Valid, Ours, Part, BaseKept;
      var source := Read(from);
      if source.Err? {
        return Some(source.error);
      }
      Truncate(to);
      r := WriteAll(to, source.value);
    }

    /** The database driver writes one of its export files under a staging name, or leaves it out. */
    method DriverWrites(p: Path, content: Option<FileBytes>)
      requires Valid() && p in reserved && p !in Ours()
      modifies this
      ensures Valid() && BaseKept() && clock == old(clock) + 1 && created == old(created)
      ensures Ours() == if content.Some? then old(Ours())[p := content.value] else old(Ours())
      ensures old(Calm()) ==> Calm() && theirs == old(theirs)
    {
      var _ := Interfere();
      if content.Some? {
        PartPut(files, p, content.value);
        files := files[p := Entry(content.value, true)];
      }
    }

    /** Removal errors are ignored. */
    method Cleanup(a: Path, b: Path)
      requires Valid() && {a, b} <= reserved
      modifies this
      ensures Valid() && BaseKept() && clock == old(clock) + 2 && created == old(created)
      ensures CleanedUp(old(Ours()), Ours(), a, b)
      ensures removalsWork ==> Ours() == old(Ours()) - {a, b}
      ensures old(Calm()) ==> Calm() && theirs == old(theirs)
    {
      hide AsTheyMadeIt, Part, BaseKept;
      var _ := RemoveFile(a);
      var _ := RemoveFile(b);
    }

    /** How many reads, the last of them failing or empty, get through `remaining` bytes from time `k` on. */
    ghost function ReadsFrom(k: nat, remaining: nat): nat
      decreases remaining
    {
      var got := ChunkSize(fate(k).written, remaining);
      if fate(k).fails || got == 0 then 1 else 1 + ReadsFrom(k + 1, remaining - got)
    }

    /** How many calls it takes to hash a file of the job. */
    ghost function HashTime(k: nat, size: nat): nat {
      if fate(k).fails then 1 else 1 + ReadsFrom(k + 1, size)
    }

    /** The read loop of `hash_file`: count and state after all of the bytes, whatever chunks they come in. */
    method AbsorbAll<S>(h: Hasher<S>, bytes: FileBytes) returns (r: Option<(nat, S)>)
      requires Valid()
      modifies this
      ensures Valid() && BaseKept() && created == old(created) && Ours() == old(Ours())
      ensures clock == old(clock) + ReadsFrom(old(clock), |bytes|)
      ensures r.Some? ==> r.value == (|bytes|, Update(h, h.init, bytes))
      ensures old(Calm()) ==> Calm() && theirs == old(theirs) && r.Some?
    {
      hide Valid, Part, AsTheyMadeIt, BaseKept, Calm, Ours, Update;
      ValidKeepsBase();
      var state := h.init;
      var n := 0;
      NothingAbsorbed(h, bytes);
      while true
        invariant Valid() && BaseKept() && created == old(created) && Ours() == old(Ours())
        invariant 0 <= n <= |bytes|
        invariant clock + ReadsFrom(clock, |bytes| - n) == old(clock) + ReadsFrom(old(clock), |bytes|)
        invariant state == Update(h, h.init, bytes[..n])
        invariant old(Calm()) ==> Calm() && theirs == old(theirs)
        decreases |bytes| - n
      {
        var f := Interfere();
        if f.fails {
          return None;
        }
        var k := ChunkSize(f.written, |bytes| - n);
        if k == 0 {
          break;
        }
        UpdateConcat(h, h.init, bytes[..n], bytes[n..n + k]);
        assert bytes[..n] + bytes[n..n + k] == bytes[..n + k];
        state := Update(h, state, bytes[n..n + k]);
        n := n + k;
      }
      assert bytes[..n] == bytes;
      return Some((n, state));
    }

    /** `hash_file`: size and digest of the whole file. */
    method HashFile<S>(p: Path, h: Hasher<S>) returns (r: Result<(nat, string), IoError>)
      requires Valid()
      modifies this
      ensures Valid() && BaseKept() && old(clock) <= clock && created == old(created)
      ensures Ours() == old(Ours())
      ensures r.Ok? && p in reserved ==> p in old(Ours())
      ensures r.Ok? && p in old(Ours()) ==> r.value == (|old(Ours())[p]|, Digest(h, old(Ours())[p]))
      ensures p in old(Ours()) ==> clock == old(clock) + HashTime(old(clock), |old(Ours())[p]|)
      ensures old(Calm()) ==> Calm() && theirs == old(theirs) && (r.Ok? <==> OnDisk(p))
    {
      hide Part, AsTheyMadeIt, BaseKept, Calm, Ours, Update;
      var open := Read(p);
      if open.Err? {
        return Err(open.error);
      }
      var bytes := open.value;
      var absorbed := AbsorbAll(h, bytes);
      if absorbed.None? {
        return Err(OtherIo);
      }
      return Ok((absorbed.value.0, h.finish(absorbed.value.1)));
    }
  }

  const CHUNK: nat := 65536

  /** A read yields up to a buffer full of what remains, and nothing only at the end of the file. */
  function ChunkSize(offered: nat, remaining: nat): (k: nat)
    ensures k <= remaining && k <= CHUNK && (k == 0 <==> remaining == 0)
  {
    if remaining == 0 then 0
    else if 0 < offered <= remaining && offered <= CHUNK then offered
    else 1
  }
}
