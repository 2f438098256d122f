/** The CNI installer of internal/cniinstall/install.go and the selection contract
    of internal/nodeagent/installation.go: a sequence of atomic file writes that
    may stop after any of them. */
module CniInstaller {
  import opened Common

  datatype Kind = Waycloak | Primary | NoType

  /** One chained plugin. `meaning` is its JSON value with numbers as floating point,
      `numbers` how its numbers are written and `order` the order of its keys, both of
      which a rewrite keeps. It is not `finite` if a number has no floating-point value. */
  datatype Plugin = Plugin(kind: Kind, meaning: nat, numbers: nat, order: nat, finite: bool)

  /** The contents of a file. A config's `keys` is how its top-level keys are spelled,
      which decoding ignores; `extra` is 0 unless it has unknown fields or trailing data;
      `layout` is the whitespace. CANONICAL is what the installer writes. Version and name
      0 are "". */
  datatype Doc =
    | Doc(version: nat, name: nat, plugins: seq<Plugin>, keys: nat, extra: nat, layout: nat)
    | NotJson(bytes: nat)
    | Executable(build: nat)
    | Receipt(release: nat, build: nat, config: Doc, primary: Option<Upstream>)

  datatype Upstream = Upstream(path: Path, digest: Doc)

  const CANONICAL := 0

  /** Names in the runtime's config directory are numbered in their sort order, with gaps,
      so that the remainder by three tells the extension. */
  datatype Path = Path(inConfigDir: bool, name: nat)

  predicate IsConflist(p: Path) {
    p.name % 3 == 0
  }

  /** A .conflist, .conf or .json in the runtime's config directory. */
  predicate Selectable(p: Path) {
    p.inConfigDir && p.name % 3 != 2
  }

  type Files = map<Path, Doc>

  /** Where everything goes, what is installed, and how long a file is in bytes. */
  datatype Options = Options(
    config: Path, source: Option<Path>, legacyBackup: Path, backup: Path, executable: Path, receipt: Path,
    migrate: bool, own: Plugin, build: nat, release: nat, size: Doc -> nat)

  const READ_LIMIT := 0x10_0000

  predicate Fits(o: Options, doc: Doc) {
    o.size(doc) <= READ_LIMIT
  }

  /** The entry that the installer appends holds only strings. */
  predicate IsOwn(own: Plugin) {
    own.kind == Waycloak && own.numbers == 0 && own.order == 0 && own.finite
  }

  predicate ValidOptions(o: Options) {
    && o.config.inConfigDir && o.config != o.backup
    && IsOwn(o.own)
    && (o.migrate ==> o.source.Some?)
    && (o.source.Some? ==>
          && o.source.value.inConfigDir && IsConflist(o.source.value)
          && o.config.name < o.source.value.name && o.source.value != o.backup)
    && !Selectable(o.legacyBackup)
  }

  // ---- Rendering ----

  predicate NoWaycloak(plugins: seq<Plugin>) {
    forall i :: 0 <= i < |plugins| ==> plugins[i].kind != Waycloak
  }

  predicate OnceAt(plugins: seq<Plugin>, i: int) {
    && 0 <= i < |plugins| && plugins[i].kind == Waycloak
    && forall j :: 0 <= j < |plugins| && plugins[j].kind == Waycloak ==> j == i
  }

  /** requireWaycloakChain: exactly once, after a primary plugin. */
  predicate Chained(doc: Doc) {
    doc.Doc? && exists i :: 1 <= i < |doc.plugins| && OnceAt(doc.plugins, i)
  }

  predicate WellFormed(doc: Doc) {
    && doc.Doc? && doc.extra == 0 && doc.version != 0 && doc.name != 0 && doc.plugins != []
    && forall i :: 0 <= i < |doc.plugins| ==> doc.plugins[i].kind != NoType
  }

  predicate OwnAt(plugins: seq<Plugin>, own: Plugin, i: int) {
    1 <= i < |plugins| && OnceAt(plugins, i) && plugins[i].finite && plugins[i].meaning == own.meaning
  }

  datatype Rendered = Refused | Rendered(doc: Doc, alreadyInstalled: bool)

  function Render(doc: Doc, own: Plugin): Rendered {
    if !WellFormed(doc) then Refused
    else if NoWaycloak(doc.plugins) then
      Rendered.Rendered(doc.(plugins := doc.plugins + [own], keys := CANONICAL, layout := CANONICAL), false)
    else if exists i :: 1 <= i < |doc.plugins| && OwnAt(doc.plugins, own, i) then
      Rendered.Rendered(doc.(keys := CANONICAL, layout := CANONICAL), true)
    else Refused
  }

  function Respelled(plugins: seq<Plugin>): seq<Plugin> {
    seq(|plugins|, i requires 0 <= i < |plugins| => plugins[i].(numbers := 0, order := 0))
  }

  function Reordered(plugins: seq<Plugin>): seq<Plugin> {
    seq(|plugins|, i requires 0 <= i < |plugins| => plugins[i].(order := 0))
  }

  function Numbers(plugins: seq<Plugin>): seq<nat> {
    seq(|plugins|, i requires 0 <= i < |plugins| => plugins[i].numbers)
  }

  /** What jsonEqual compares: neither formatting nor number text. */
  function Meaning(doc: Doc): Doc {
    if doc.Doc? then doc.(plugins := Respelled(doc.plugins), layout := CANONICAL) else doc
  }

  /** What PrimaryConfigDigest hashes: no formatting, but the numbers as written. */
  function Digest(doc: Doc): Doc {
    if doc.Doc? then doc.(plugins := Reordered(doc.plugins), layout := CANONICAL) else doc
  }

  predicate Finite(doc: Doc) {
    doc.Doc? && forall i :: 0 <= i < |doc.plugins| ==> doc.plugins[i].finite
  }

  predicate JsonEqual(a: Doc, b: Doc) {
    Finite(a) && Finite(b) && Meaning(a) == Meaning(b)
  }

  /** The plugin scan of render and requireWaycloakChain. */
  method RequireWaycloakChain(doc: Doc) returns (ok: bool)
    ensures ok == Chained(doc)
  {
    if !doc.Doc? {
      return false;
    }
    var count, index := 0, -1;
    for i := 0 to |doc.plugins|
      invariant count == 0 <==> index == -1
      invariant count == 0 ==> NoWaycloak(doc.plugins[..i])
      invariant count == 1 ==> OnceAt(doc.plugins[..i], index)
      invariant count >= 0 && -1 <= index < i
      invariant count > 1 ==>
                exists j, k :: 0 <= j < k < i && doc.plugins[j].kind == Waycloak && doc.plugins[k].kind == Waycloak
    {
      assert doc.plugins[..i + 1] == doc.plugins[..i] + [doc.plugins[i]];
      if doc.plugins[i].kind == Waycloak {
        count, index := count + 1, i;
      }
    }
    assert doc.plugins[..|doc.plugins|] == doc.plugins;
    ok := count == 1 && index >= 1;
  }

  /** Rendering what was rendered changes nothing. */
  lemma RenderIdempotent(doc: Doc, own: Plugin)
    requires IsOwn(own) && Render(doc, own).Rendered?
    ensures Render(Render(doc, own).doc, own) == Rendered.Rendered(Render(doc, own).doc, true)
  {
    var r := Render(doc, own).doc;
    if NoWaycloak(doc.plugins) {
      assert OwnAt(r.plugins, own, |doc.plugins|);
    }
  }

  lemma RenderedIsChained(doc: Doc, own: Plugin)
    requires own.kind == Waycloak && Render(doc, own).Rendered?
    ensures Chained(Render(doc, own).doc)
  {
    var r := Render(doc, own).doc;
    if NoWaycloak(doc.plugins) {
      assert OnceAt(r.plugins, |doc.plugins|);
    } else {
      var i :| OwnAt(doc.plugins, own, i);
    }
  }

  // ---- Selection ----

  /** ValidateCNIConfigSelection: no earlier config shadows this one. */
  predicate SelectionFree(files: Files, config: Path) {
    forall p :: p in files && Selectable(p) ==> config.name <= p.name
  }

  /** A file at this path is, or would be, the one the runtime loads. */
  predicate Shadows(files: Files, p: Path) {
    Selectable(p) && forall q :: q in files && Selectable(q) ==> p.name <= q.name
  }

  /** The config that the runtime loads chains Waycloak. */
  predicate Guarded(files: Files) {
    exists p :: p in files && Shadows(files, p) && Chained(files[p])
  }

  // ---- The decision taken before any write ----

  datatype Decision = Refuse | Install(original: Doc, rendered: Doc, createBackup: bool, restoreSource: bool)

  predicate Reads(files: Files, o: Options, p: Path) {
    p in files && Fits(o, files[p])
  }

  /** preserveOriginal and the check of an installed chain against its backup. */
  function DecideInPlace(files: Files, o: Options): Decision
    requires o.config in files
  {
    match Render(files[o.config], o.own)
    case Refused => Refuse
    case Rendered(rendered, alreadyInstalled) =>
      var original := files[o.config];
      if !alreadyInstalled then
        if o.backup !in files then Install(original, rendered, true, false)
        else if Fits(o, files[o.backup]) && files[o.backup] == original then Install(original, rendered, false, false)
        else Refuse
      else if Reads(files, o, o.backup) && Render(files[o.backup], o.own) == Rendered.Rendered(rendered, false) then
        Install(original, rendered, false, false)
      else Refuse
  }

  /** The separately owned layout, given the unchained primary to build on. */
  function DecideOwned(files: Files, o: Options, original: Doc, rendered: Doc, restore: bool): Decision {
    if o.config in files && !Fits(o, files[o.config]) then Refuse
    else if o.backup in files then
      if !Fits(o, files[o.backup]) then Refuse
      else
        match Render(files[o.backup], o.own)
        case Refused => Refuse
        case Rendered(expected, installed) =>
          if installed || (o.config in files && files[o.config] != expected) || !JsonEqual(expected, rendered) then
            Refuse
          else Install(files[o.backup], expected, false, restore)
    else if o.config in files then Refuse
    else Install(original, rendered, true, restore)
  }

  function DecideSeparate(files: Files, o: Options, source: Path): Decision
    requires source in files
  {
    match Render(files[source], o.own)
    case Refused => Refuse
    case Rendered(rendered, alreadyInstalled) =>
      if !alreadyInstalled then DecideOwned(files, o, files[source], rendered, false)
      else if !o.migrate || !Reads(files, o, o.legacyBackup) then Refuse
      else
        match Render(files[o.legacyBackup], o.own)
        case Refused => Refuse
        case Rendered(expected, installed) =>
          if installed || !JsonEqual(expected, files[source]) then Refuse
          else DecideOwned(files, o, files[o.legacyBackup], expected, true)
  }

  function Decide(files: Files, o: Options): Decision {
    if !ValidOptions(o) || !IsConflist(o.config) || !SelectionFree(files, o.config) then Refuse
    else if o.source.None? then if Reads(files, o, o.config) then DecideInPlace(files, o) else Refuse
    else if Reads(files, o, o.source.value) then DecideSeparate(files, o, o.source.value)
    else Refuse
  }

  // ---- The writes ----

  const STAGES := 5

  function ReceiptFor(o: Options, d: Decision): Doc
    requires d.Install?
  {
    Receipt(o.release, o.build, d.rendered,
            if o.source.Some? then Some(Upstream(o.source.value, Digest(d.original))) else None)
  }

  /** The executable has replaced the source that a migration is about to restore, which
      ends the run there. */
  predicate Halts(o: Options, d: Decision) {
    d.Install? && d.restoreSource && o.source == Some(o.executable)
  }

  /** The files after the first n of the five writes: preserved primary, executable,
      owned config, restored source, receipt. Any of their paths may coincide. */
  function AfterWrites(files: Files, o: Options, d: Decision, n: nat): Files
    requires d.Install?
  {
    if n == 0 then files
    else
      var f := AfterWrites(files, o, d, n - 1);
      if n == 1 then if d.createBackup then f[o.backup := d.original] else f
      else if n == 2 then f[o.executable := Executable(o.build)]
      else if n == 3 then f[o.config := d.rendered]
      else if Halts(o, d) then f
      else if n == 4 then if d.restoreSource && o.source.Some? then f[o.source.value := d.original] else f
      else if n == 5 then f[o.receipt := ReceiptFor(o, d)]
      else f
  }

  /** What every accepted decision has in common. */
  ghost predicate Sound(files: Files, o: Options, d: Decision) {
    && d.Install? && IsOwn(o.own)
    && Fits(o, d.original)
    && Render(d.rendered, o.own) == Rendered.Rendered(d.rendered, true)
    && (d.createBackup <==> o.backup !in files)
    && (d.createBackup ==> Render(d.original, o.own) == Rendered.Rendered(d.rendered, false))
    && (d.restoreSource ==> o.source.Some?)
    && (o.source.Some? ==> Render(d.original, o.own) == Rendered.Rendered(d.rendered, false))
    && (o.source.Some? && !d.createBackup ==> files[o.backup] == d.original)
  }

  lemma DecisionSound(files: Files, o: Options)
    requires Decide(files, o).Install?
    ensures Sound(files, o, Decide(files, o))
  {
    if o.config in files && Render(files[o.config], o.own).Rendered? {
      RenderIdempotent(files[o.config], o.own);
    }
    if o.backup in files && Render(files[o.backup], o.own).Rendered? {
      RenderIdempotent(files[o.backup], o.own);
    }
    if o.legacyBackup in files && Render(files[o.legacyBackup], o.own).Rendered? {
      RenderIdempotent(files[o.legacyBackup], o.own);
    }
    if o.source.Some? && Render(files[o.source.value], o.own).Rendered? {
      RenderIdempotent(files[o.source.value], o.own);
    }
  }

  lemma UnchainedOriginal(doc: Doc, own: Plugin)
    requires Render(doc, own).Rendered? && !Render(doc, own).alreadyInstalled
    ensures !Chained(doc)
  {
  }

  // ---- A selected guard at every crash prefix ----

  /** One write keeps the guard exactly when it does not put something unchained where the
      runtime looks first. */
  lemma GuardAfterWrite(files: Files, p: Path, doc: Doc)
    requires Guarded(files)
    ensures Guarded(files[p := doc]) <==> (Shadows(files, p) ==> Chained(doc))
  {
    var first :| first in files && Shadows(files, first) && Chained(files[first]);
    var after := files[p := doc];
    if Shadows(files, p) {
      assert Shadows(after, p);
      forall q | q in after && Shadows(after, q) ensures q == p {
        assert q.name <= p.name && p.name <= q.name;
      }
    } else {
      assert first != p;
      assert Shadows(after, first) && after[first] == files[first];
    }
  }

  /** The preserved primary, not there yet, would become the selected config. */
  predicate ShadowedByBackup(files: Files, o: Options) {
    o.backup !in files && Shadows(files, o.backup)
  }

  /** A file at this path comes no later than the owned config. */
  predicate Covers(o: Options, p: Path) {
    Selectable(p) && p.name <= o.config.name
  }

  /** Nothing but a chain is put where the runtime looks first. */
  predicate NothingShadows(files: Files, o: Options) {
    && !ShadowedByBackup(files, o) && !Shadows(files, o.executable)
    && (Covers(o, o.receipt) ==> Halts(o, Decide(files, o)))
  }

  /** After the first write. */
  lemma GuardAfterBackup(files: Files, o: Options, d: Decision)
    requires Sound(files, o, d) && Guarded(files)
    ensures Guarded(AfterWrites(files, o, d, 1)) <==> !ShadowedByBackup(files, o)
  {
    if d.createBackup {
      UnchainedOriginal(d.original, o.own);
      GuardAfterWrite(files, o.backup, d.original);
    }
    assert AfterWrites(files, o, d, 1) == if d.createBackup then files[o.backup := d.original] else files;
  }

  /** After the second. */
  lemma GuardAfterExecutable(files: Files, o: Options, d: Decision)
    requires Sound(files, o, d) && Guarded(files) && !ShadowedByBackup(files, o)
    ensures Guarded(AfterWrites(files, o, d, 2)) <==> !Shadows(files, o.executable)
  {
    var one := AfterWrites(files, o, d, 1);
    GuardAfterBackup(files, o, d);
    GuardAfterWrite(one, o.executable, Executable(o.build));
    assert AfterWrites(files, o, d, 2) == one[o.executable := Executable(o.build)];
    if d.createBackup {
      ShadowsSame(files, o.backup, d.original, o.executable);
    }
  }

  lemma ShadowsSame(files: Files, b: Path, doc: Doc, p: Path)
    requires Guarded(files) && !Shadows(files, b)
    ensures Shadows(files[b := doc], p) <==> Shadows(files, p)
  {
    var first :| first in files && Shadows(files, first) && Chained(files[first]);
    if Shadows(files, p) && Selectable(b) {
      assert p.name <= first.name;
    }
  }

  lemma EarlyShadows(files: Files, config: Path, p: Path)
    requires SelectionFree(files, config) && Selectable(p) && p.name <= config.name
    ensures Shadows(files, p)
  {
  }

  /** And after the others. */
  lemma GuardFromConfig(files: Files, o: Options)
    requires Decide(files, o).Install? && Guarded(files) && !ShadowedByBackup(files, o) && !Shadows(files, o.executable)
    ensures var d := Decide(files, o);
            && Guarded(AfterWrites(files, o, d, 3)) && Guarded(AfterWrites(files, o, d, 4))
            && (Guarded(AfterWrites(files, o, d, 5)) <==> (Covers(o, o.receipt) ==> Halts(o, d)))
  {
    var d := Decide(files, o);
    DecisionSound(files, o);
    GuardAfterExecutable(files, o, d);
    var two, three, four := AfterWrites(files, o, d, 2), AfterWrites(files, o, d, 3), AfterWrites(files, o, d, 4);
    RenderedIsChained(d.rendered, o.own);
    GuardAfterWrite(two, o.config, d.rendered);
    assert three == two[o.config := d.rendered];
    assert SelectionFree(three, o.config) by {
      FilesAfter(files, o, d, 3);
      if SortsFirst(o, o.backup) {
        EarlyShadows(files, o.config, o.backup);
      }
      if SortsFirst(o, o.executable) {
        EarlyShadows(files, o.config, o.executable);
      }
    }
    if d.restoreSource && !Halts(o, d) {
      UnchainedOriginal(d.original, o.own);
      GuardAfterWrite(three, o.source.value, d.original);
      assert four == three[o.source.value := d.original];
    }
    if !Halts(o, d) {
      GuardAfterWrite(four, o.receipt, ReceiptFor(o, d));
      assert Shadows(four, o.receipt) <==> Covers(o, o.receipt);
    }
  }

  /** If the selected config chained Waycloak before the installation, it does at every
      crash prefix, legacy migration included, exactly when neither the preserved primary
      nor the executable nor the receipt is put where the runtime looks first. */
  lemma GuardAtEveryPrefix(files: Files, o: Options)
    requires Decide(files, o).Install? && Guarded(files)
    ensures (forall n :: 0 <= n <= STAGES ==> Guarded(AfterWrites(files, o, Decide(files, o), n))) <==>
            NothingShadows(files, o)
  {
    var d := Decide(files, o);
    DecisionSound(files, o);
    GuardAfterBackup(files, o, d);
    if !ShadowedByBackup(files, o) {
      GuardAfterExecutable(files, o, d);
      if !Shadows(files, o.executable) {
        GuardFromConfig(files, o);
      }
    }
    if NothingShadows(files, o) {
      forall n | 0 <= n <= STAGES ensures Guarded(AfterWrites(files, o, d, n)) {
        assert n == 0 || n == 1 || n == 2 || n == 3 || n == 4 || n == 5;
      }
    }
  }

  /** A legacy migration that loses the guard after its first write. */
  lemma MigrationLosesGuard()
    ensures var own, primary := Plugin(Waycloak, 2, 0, 0, true), Plugin(Primary, 1, 0, 0, true);
            var source, legacy := Path(true, 9), Path(true, 11);
            var o := Options(Path(true, 6), Some(source), legacy, Path(true, 3), Path(false, 1), Path(false, 2),
                             true, own, 1, 1, _ => 0);
            var files := map[source := Doc(1, 1, [primary, own], 0, 0, 0), legacy := Doc(1, 1, [primary], 0, 0, 0)];
            && Decide(files, o).Install? && Guarded(files)
            && !Guarded(AfterWrites(files, o, Decide(files, o), 1))
  {
    var own, primary := Plugin(Waycloak, 2, 0, 0, true), Plugin(Primary, 1, 0, 0, true);
    var source, legacy := Path(true, 9), Path(true, 11);
    var o := Options(Path(true, 6), Some(source), legacy, Path(true, 3), Path(false, 1), Path(false, 2),
                     true, own, 1, 1, _ => 0);
    var chained, plain := Doc(1, 1, [primary, own], 0, 0, 0), Doc(1, 1, [primary], 0, 0, 0);
    var files := map[source := chained, legacy := plain];
    assert OwnAt(chained.plugins, own, 1);
    assert Render(plain, own) == Rendered.Rendered(chained, false);
    assert Shadows(files, source) && Chained(chained);
    DecisionSound(files, o);
    GuardAfterBackup(files, o, Decide(files, o));
  }

  /** The chain and the executable it names: the owned config changes only while the
      executable is in place. */
  predicate ChainHasBinary(files: Files, f: Files, o: Options) {
    || (o.executable in f && f[o.executable] == Executable(o.build))
    || (if o.config in files then o.config in f && f[o.config] == files[o.config] else o.config !in f)
  }

  /** Something else is written over the executable, and the owned config was not there
      already, or is written over as well. */
  predicate BinaryReplaced(files: Files, o: Options) {
    var d := Decide(files, o);
    && d.Install? && (o.executable == o.config || (o.executable == o.receipt && !Halts(o, d)))
    && (o.receipt == o.config || !(o.config in files && files[o.config] == d.rendered))
  }

  /** At every crash prefix, exactly when nothing is written over the executable. */
  lemma BinaryBeforeChain(files: Files, o: Options)
    requires Decide(files, o).Install?
    ensures (forall n :: 0 <= n <= STAGES ==> ChainHasBinary(files, AfterWrites(files, o, Decide(files, o), n), o)) <==>
            !BinaryReplaced(files, o)
  {
    var d := Decide(files, o);
    DecisionSound(files, o);
    if BinaryReplaced(files, o) {
      var n := if o.executable == o.config && o.receipt != o.config then 3 else 5;
      FilesAfter(files, o, d, n);
      assert !ChainHasBinary(files, AfterWrites(files, o, d, n), o);
    } else {
      forall n | 0 <= n <= STAGES ensures ChainHasBinary(files, AfterWrites(files, o, d, n), o) {
        FilesAfter(files, o, d, n);
      }
    }
  }

  /** The files after n writes, written out. */
  lemma FilesAfter(files: Files, o: Options, d: Decision, n: nat)
    requires d.Install? && n <= STAGES
    ensures var one := if d.createBackup && n >= 1 then files[o.backup := d.original] else files;
            var two := if n >= 2 then one[o.executable := Executable(o.build)] else one;
            var three := if n >= 3 then two[o.config := d.rendered] else two;
            var restored := d.restoreSource && o.source.Some? && !Halts(o, d) && n >= 4;
            var four := if restored then three[o.source.value := d.original] else three;
            AfterWrites(files, o, d, n) == if n >= 5 && !Halts(o, d) then four[o.receipt := ReceiptFor(o, d)] else four
  {
    if n > 0 {
      FilesAfter(files, o, d, n - 1);
    }
  }

  // ---- Rerunning after a crash ----

  /** A file at this path makes every later selection check fail. */
  predicate SortsFirst(o: Options, p: Path) {
    Selectable(p) && p.name < o.config.name
  }

  function Plain(doc: Doc): Doc {
    if doc.Doc? then doc.(keys := CANONICAL) else doc
  }

  lemma MeaningOfRendered(a: Doc, b: Doc, own: Plugin)
    requires own.kind == Waycloak && Render(a, own).Rendered? && Render(b, own).Rendered?
    requires !Render(a, own).alreadyInstalled && !Render(b, own).alreadyInstalled
    requires JsonEqual(Render(a, own).doc, Render(b, own).doc)
    ensures Meaning(Plain(a)) == Meaning(Plain(b))
  {
    var x, y := Respelled(a.plugins + [own]), Respelled(b.plugins + [own]);
    assert x == y;
    assert Respelled(a.plugins) == x[..|a.plugins|] && Respelled(b.plugins) == y[..|b.plugins|];
    assert |x| == |y|;
  }

  predicate SameText(a: Doc, b: Doc) {
    a.Doc? && b.Doc? && a.keys == b.keys && Numbers(a.plugins) == Numbers(b.plugins)
  }

  /** Configs that mean the same, but for the spelling of their top-level keys, have one
      digest exactly when their numbers and those keys are written the same. */
  lemma DigestIsMeaningAndText(a: Doc, b: Doc)
    requires a.Doc? && b.Doc? && Meaning(Plain(a)) == Meaning(Plain(b))
    ensures Digest(a) == Digest(b) <==> SameText(a, b)
  {
    var x, y := Respelled(a.plugins), Respelled(b.plugins);
    assert x == y && |x| == |a.plugins| && |y| == |b.plugins|;
    assert forall i :: 0 <= i < |x| ==> x[i] == y[i];
    if Digest(a) == Digest(b) {
      assert Reordered(a.plugins) == Reordered(b.plugins);
      forall i | 0 <= i < |a.plugins| ensures a.plugins[i].numbers == b.plugins[i].numbers {
        assert Reordered(a.plugins)[i].numbers == Reordered(b.plugins)[i].numbers;
      }
    }
    if Numbers(a.plugins) == Numbers(b.plugins) {
      forall i | 0 <= i < |a.plugins| ensures Reordered(a.plugins)[i] == Reordered(b.plugins)[i] {
        assert x[i] == y[i] && Numbers(a.plugins)[i] == Numbers(b.plugins)[i];
      }
      assert Reordered(a.plugins) == Reordered(b.plugins);
    }
  }

  /** What the first n writes left can be read back: none of them sorts before the owned
      config, and none went over a file that a rerun reads. */
  predicate Undisturbed(files: Files, o: Options, n: nat) {
    var d := Decide(files, o);
    && d.Install? && !SortsFirst(o, o.backup)
    && (n >= 2 ==> !SortsFirst(o, o.executable) && o.executable != o.backup && o.source != Some(o.executable))
    && (n == 2 ==> o.executable != o.config)
    && (2 <= n <= 3 && d.restoreSource ==> o.executable != o.legacyBackup)
    && (n >= 3 ==> Fits(o, d.rendered))
    && (n >= 5 ==>
      !SortsFirst(o, o.receipt) && o.receipt != o.config && o.receipt != o.backup && o.source != Some(o.receipt))
    && (o.source.Some? ==> Finite(d.original))
  }

  lemma RerunInPlace(files: Files, o: Options, n: nat)
    requires Decide(files, o).Install? && 1 <= n <= STAGES && o.source.None?
    ensures var d := Decide(files, o);
            var again := Decide(AfterWrites(files, o, d, n), o);
            && (again.Install? <==> Undisturbed(files, o, n))
            && (again.Install? ==> again.rendered == d.rendered && !again.createBackup && !again.restoreSource)
  {
    var d := Decide(files, o);
    DecisionSound(files, o);
    FilesAfter(files, o, d, n);
    var f := AfterWrites(files, o, d, n);
    RerunSelection(files, o, n);
  }

  /** The selection check of the rerun. */
  lemma RerunSelection(files: Files, o: Options, n: nat)
    requires Decide(files, o).Install? && 1 <= n <= STAGES
    ensures var d := Decide(files, o);
            SelectionFree(AfterWrites(files, o, d, n), o.config) <==>
            && !SortsFirst(o, o.backup) && (n >= 2 ==> !SortsFirst(o, o.executable))
            && (n >= 5 && !Halts(o, d) ==> !SortsFirst(o, o.receipt))
  {
    var d := Decide(files, o);
    DecisionSound(files, o);
    FilesAfter(files, o, d, n);
    var f := AfterWrites(files, o, d, n);
    assert o.backup in f && (n >= 2 ==> o.executable in f) && (n >= 5 && !Halts(o, d) ==> o.receipt in f);
  }

  lemma FiniteRendered(doc: Doc, own: Plugin)
    requires IsOwn(own) && Render(doc, own).Rendered?
    ensures Finite(Render(doc, own).doc) <==> Finite(doc)
  {
    if NoWaycloak(doc.plugins) {
      assert forall i :: 0 <= i < |doc.plugins| ==> (doc.plugins + [own])[i] == doc.plugins[i];
    }
  }

  /** What a rerun of the separately owned layout reads. */
  predicate ReadBack(files: Files, o: Options, d: Decision, f: Files, restored: bool)
    requires d.Install? && o.source.Some? && o.source.value in files
  {
    && SelectionFree(f, o.config) && o.backup in f && f[o.backup] == d.original
    && o.source.value in f && f[o.source.value] == (if restored then d.original else files[o.source.value])
    && (o.config in f ==>
      (f[o.config] == d.rendered && Fits(o, d.rendered)) || (o.config in files && f[o.config] == files[o.config]))
    && (d.restoreSource && !restored ==>
      o.legacyBackup in files && o.legacyBackup in f && f[o.legacyBackup] == files[o.legacyBackup])
    && (restored ==> d.restoreSource)
  }

  lemma DecidesAgain(files: Files, o: Options, f: Files, restored: bool)
    requires Decide(files, o).Install? && o.source.Some? && Finite(Decide(files, o).original)
    requires ReadBack(files, o, Decide(files, o), f, restored)
    ensures var d := Decide(files, o);
            Decide(f, o) == Install(d.original, d.rendered, false, d.restoreSource && !restored)
  {
    var d := Decide(files, o);
    DecisionSound(files, o);
    FiniteRendered(d.original, o.own);
  }

  lemma FilesReadBack(files: Files, o: Options, n: nat)
    requires Decide(files, o).Install? && 1 <= n <= STAGES && o.source.Some? && Undisturbed(files, o, n)
    ensures var d := Decide(files, o);
            ReadBack(files, o, d, AfterWrites(files, o, d, n), d.restoreSource && n >= 4)
  {
    var d := Decide(files, o);
    DecisionSound(files, o);
    FilesAfter(files, o, d, n);
    RerunSelection(files, o, n);
  }

  /** A rerun of the separately owned layout that can read back what it needs. */
  lemma RerunOwnedReads(files: Files, o: Options, n: nat)
    requires Decide(files, o).Install? && 1 <= n <= STAGES && o.source.Some? && Undisturbed(files, o, n)
    ensures var d := Decide(files, o);
            Decide(AfterWrites(files, o, d, n), o) == Install(d.original, d.rendered, false, d.restoreSource && n < 4)
  {
    var d := Decide(files, o);
    FilesReadBack(files, o, n);
    DecidesAgain(files, o, AfterWrites(files, o, d, n), d.restoreSource && n >= 4);
  }

  /** Or cannot read. */
  predicate Spoiled(o: Options, f: Files) {
    || !SelectionFree(f, o.config)
    || (o.source.Some? && o.source.value in f && !f[o.source.value].Doc?)
    || (o.backup in f && !f[o.backup].Doc?)
    || (o.config in f && (!f[o.config].Doc? || !Fits(o, f[o.config])))
  }

  lemma SpoiledRefuses(o: Options, f: Files)
    requires o.source.Some? && Spoiled(o, f)
    ensures Decide(f, o).Refuse?
  {
  }

  lemma LegacyRefuses(files: Files, o: Options, f: Files)
    requires Decide(files, o).Install? && o.source.Some? && Decide(files, o).restoreSource
    requires o.source.value in f && f[o.source.value] == files[o.source.value]
    requires o.legacyBackup in f && !f[o.legacyBackup].Doc?
    ensures Decide(f, o).Refuse?
  {
  }

  lemma InfiniteRefuses(files: Files, o: Options, f: Files)
    requires Decide(files, o).Install? && o.source.Some? && !Finite(Decide(files, o).original)
    requires o.backup in f && f[o.backup] == Decide(files, o).original
    ensures Decide(f, o).Refuse?
  {
    DecisionSound(files, o);
    FiniteRendered(f[o.backup], o.own);
  }

  /** A rerun that cannot read back what it needs. */
  lemma RerunOwnedFails(files: Files, o: Options, n: nat)
    requires Decide(files, o).Install? && 1 <= n <= STAGES && o.source.Some? && !Undisturbed(files, o, n)
    ensures Decide(AfterWrites(files, o, Decide(files, o), n), o).Refuse?
  {
    var d := Decide(files, o);
    DecisionSound(files, o);
    FilesAfter(files, o, d, n);
    RerunSelection(files, o, n);
    var f := AfterWrites(files, o, d, n);
    if Spoiled(o, f) {
      SpoiledRefuses(o, f);
    } else if 2 <= n <= 3 && d.restoreSource && o.executable == o.legacyBackup {
      LegacyRefuses(files, o, f);
    } else {
      InfiniteRefuses(files, o, f);
    }
  }

  /** Once written, the owned config is the one the runtime loads exactly when nothing
      written so far sorts before it and the receipt does not go over it. */
  lemma OwnedIsSelected(files: Files, o: Options, n: nat)
    requires Decide(files, o).Install? && 3 <= n <= STAGES && !Halts(o, Decide(files, o))
    ensures var d := Decide(files, o);
            var f := AfterWrites(files, o, d, n);
            (o.config in f && f[o.config] == d.rendered && Shadows(f, o.config)) <==>
            && !SortsFirst(o, o.backup) && !SortsFirst(o, o.executable) && (n >= 5 ==> !Covers(o, o.receipt))
  {
    var d := Decide(files, o);
    DecisionSound(files, o);
    FilesAfter(files, o, d, n);
    RerunSelection(files, o, n);
    var f := AfterWrites(files, o, d, n);
    assert Shadows(f, o.config) <==> SelectionFree(f, o.config);
    assert Covers(o, o.receipt) <==> SortsFirst(o, o.receipt) || o.receipt == o.config;
  }

  lemma RerunOwned(files: Files, o: Options, n: nat)
    requires Decide(files, o).Install? && 1 <= n <= STAGES && o.source.Some?
    ensures var d := Decide(files, o);
            var again := Decide(AfterWrites(files, o, d, n), o);
            && (again.Install? <==> Undisturbed(files, o, n))
            && (again.Install? ==> again == Install(d.original, d.rendered, false, d.restoreSource && n < 4))
  {
    if Undisturbed(files, o, n) {
      RerunOwnedReads(files, o, n);
    } else {
      RerunOwnedFails(files, o, n);
    }
  }

  /** What is at a path after n writes. */
  function ContentAfter(files: Files, o: Options, d: Decision, n: nat, p: Path): Option<Doc>
    requires d.Install?
  {
    if n >= 5 && !Halts(o, d) && p == o.receipt then Some(ReceiptFor(o, d))
    else if n >= 4 && !Halts(o, d) && d.restoreSource && o.source == Some(p) then Some(d.original)
    else if n >= 3 && p == o.config then Some(d.rendered)
    else if n >= 2 && p == o.executable then Some(Executable(o.build))
    else if n >= 1 && d.createBackup && p == o.backup then Some(d.original)
    else if p in files then Some(files[p])
    else None
  }

  predicate Holds(files: Files, p: Path, content: Option<Doc>) {
    if p in files then content == Some(files[p]) else content.None?
  }

  lemma ContentIs(files: Files, o: Options, d: Decision, n: nat, p: Path)
    requires d.Install? && n <= STAGES
    ensures Holds(AfterWrites(files, o, d, n), p, ContentAfter(files, o, d, n, p))
  {
    FilesAfter(files, o, d, n);
  }

  /** The writes repeated over a prefix of themselves. */
  lemma RepeatedWrites(files: Files, o: Options, d: Decision, again: Decision, n: nat, p: Path)
    requires d.Install? && again.Install? && 1 <= n <= STAGES && ReceiptFor(o, again) == ReceiptFor(o, d)
    requires again.rendered == d.rendered && !again.createBackup && again.restoreSource == (d.restoreSource && n < 4)
    requires d.restoreSource ==> o.source.Some? && again.original == d.original && o.source != Some(o.config)
    requires n >= 2 ==> o.source != Some(o.executable)
    ensures ContentAfter(AfterWrites(files, o, d, n), o, again, STAGES, p) == ContentAfter(files, o, d, STAGES, p)
  {
    ContentIs(files, o, d, n, p);
  }

  /** A rerun that is accepted ends in the files of an uninterrupted run. */
  lemma RerunSame(files: Files, o: Options, n: nat)
    requires Decide(files, o).Install? && 1 <= n <= STAGES && Undisturbed(files, o, n)
    ensures var d := Decide(files, o);
            var crashed := AfterWrites(files, o, d, n);
            var again := Decide(crashed, o);
            && again.Install? && Halts(o, again) == Halts(o, d)
            && AfterWrites(crashed, o, again, STAGES) == AfterWrites(files, o, d, STAGES)
  {
    var d := Decide(files, o);
    var crashed := AfterWrites(files, o, d, n);
    DecisionSound(files, o);
    if o.source.None? {
      RerunInPlace(files, o, n);
    } else {
      RerunOwned(files, o, n);
    }
    var again := Decide(crashed, o);
    var x, y := AfterWrites(crashed, o, again, STAGES), AfterWrites(files, o, d, STAGES);
    forall p ensures (p in x <==> p in y) && (p in x && p in y ==> x[p] == y[p]) {
      ContentIs(crashed, o, again, STAGES, p);
      ContentIs(files, o, d, STAGES, p);
      RepeatedWrites(files, o, d, again, n, p);
    }
    assert x == y;
  }

  // ---- The finished installation validates ----

  /** ValidateCNIInstallation. */
  predicate ValidInstallation(files: Files, o: Options) {
    && o.receipt in files && files[o.receipt].Receipt? && o.executable in files && Reads(files, o, o.config)
    && var receipt := files[o.receipt];
       && receipt.release == o.release && files[o.executable] == Executable(receipt.build)
       && receipt.config == files[o.config] && Chained(files[o.config])
       && IsConflist(o.config) && SelectionFree(files, o.config)
       && (receipt.primary.Some? ==>
             var primary := receipt.primary.value;
             && IsConflist(primary.path) && primary.path.name > o.config.name
             && Reads(files, o, primary.path) && files[primary.path].Doc?
             && primary.digest == Digest(files[primary.path]))
  }

  /** Nothing that is validated is written over. */
  predicate PathsApart(o: Options) {
    && o.executable != o.config && o.executable != o.receipt && o.receipt != o.config
    && o.source != Some(o.executable) && o.source != Some(o.receipt)
  }

  predicate NoneSortsFirst(o: Options) {
    !SortsFirst(o, o.backup) && !SortsFirst(o, o.executable) && !SortsFirst(o, o.receipt)
  }

  /** A primary that is neither freshly preserved nor restored is written as the preserved
      one is, in its numbers and its top-level keys. */
  predicate TextAgrees(files: Files, o: Options) {
    var inPlace := && o.source.Some? && o.source.value in files && files[o.source.value].Doc?
                   && NoWaycloak(files[o.source.value].plugins);
    inPlace && o.backup in files ==> SameText(files[o.backup], files[o.source.value])
  }

  predicate Installable(files: Files, o: Options) {
    && PathsApart(o) && NoneSortsFirst(o) && TextAgrees(files, o)
    && Decide(files, o).Install? && Fits(o, Decide(files, o).rendered)
  }

  /** The run gets to its end, and what it wrote passes the validation there. */
  predicate Succeeds(files: Files, o: Options) {
    var d := Decide(files, o);
    d.Install? && !Halts(o, d) && ValidInstallation(AfterWrites(files, o, d, STAGES), o)
  }

  /** An accepted installation succeeds exactly when its paths are apart, none of the
      files it writes sorts before the owned config, that config is not too long to be read
      back, and a primary left in place is written as the preserved one is. */
  lemma InstallationValidates(files: Files, o: Options)
    requires Decide(files, o).Install?
    ensures Succeeds(files, o) <==> Installable(files, o)
  {
    var d := Decide(files, o);
    DecisionSound(files, o);
    if !Halts(o, d) {
      FinishedFiles(files, o);
      RerunSelection(files, o, STAGES);
      RenderedIsChained(d.rendered, o.own);
      if o.source.Some? && PathsApart(o) {
        PrimaryKept(files, o);
      }
    }
  }

  lemma FinishedFiles(files: Files, o: Options)
    requires Decide(files, o).Install? && !Halts(o, Decide(files, o))
    ensures var d := Decide(files, o);
            var f := AfterWrites(files, o, d, STAGES);
            && o.receipt in f && f[o.receipt] == ReceiptFor(o, d)
            && o.config in f && f[o.config] == (if o.receipt == o.config then ReceiptFor(o, d) else d.rendered)
            && o.executable in f
            && (f[o.executable] == Executable(o.build) <==> o.executable != o.config && o.executable != o.receipt)
            && (o.source.Some? ==> o.source.value in f)
            && (o.source == Some(o.executable) || o.source == Some(o.receipt) ==> !f[o.source.value].Doc?)
            && (o.source.Some? && PathsApart(o) ==>
                  f[o.source.value] == if d.restoreSource then d.original else files[o.source.value])
  {
    DecisionSound(files, o);
    FilesAfter(files, o, Decide(files, o), STAGES);
  }

  lemma PrimaryKept(files: Files, o: Options)
    requires Decide(files, o).Install? && o.source.Some? && PathsApart(o) && !Halts(o, Decide(files, o))
    ensures var d := Decide(files, o);
            var f := AfterWrites(files, o, d, STAGES);
            && Reads(f, o, o.source.value) && f[o.source.value].Doc?
            && (Digest(d.original) == Digest(f[o.source.value]) <==> TextAgrees(files, o))
  {
    var d := Decide(files, o);
    DecisionSound(files, o);
    FinishedFiles(files, o);
    if !d.restoreSource && o.backup in files {
      MeaningOfRendered(d.original, files[o.source.value], o.own);
      DigestIsMeaningAndText(d.original, files[o.source.value]);
    }
  }

  /** An interrupted installation can be run again from any prefix of its writes. It is
      accepted exactly when what was written so far can be read back, then ends in the same
      files as an uninterrupted run, and succeeds exactly when that would have. */
  lemma RerunConverges(files: Files, o: Options, n: nat)
    requires Decide(files, o).Install? && 1 <= n <= STAGES
    ensures var d := Decide(files, o);
            var crashed := AfterWrites(files, o, d, n);
            var again := Decide(crashed, o);
            && (again.Install? <==> Undisturbed(files, o, n))
            && (again.Install? ==> AfterWrites(crashed, o, again, STAGES) == AfterWrites(files, o, d, STAGES))
            && (Succeeds(crashed, o) <==> Undisturbed(files, o, n) && Installable(files, o))
  {
    InstallationValidates(files, o);
    if o.source.None? {
      RerunInPlace(files, o, n);
    } else {
      RerunOwned(files, o, n);
    }
    if Undisturbed(files, o, n) {
      RerunSame(files, o, n);
    }
  }

  // ---- Installations that fail ----

  /** A primary that only writes a number differently from the preserved one is accepted,
      installed and then refused by validation; so is one that only spells a top-level key
      differently. */
  lemma TextIsRefused(keys: nat, numbers: nat)
    requires keys != 0 || numbers != 0
    ensures var own := Plugin(Waycloak, 2, 0, 0, true);
            var preserved, rewritten := Plugin(Primary, 1, 0, 0, true), Plugin(Primary, 1, numbers, 0, true);
            var source, backup := Path(true, 9), Path(true, 8);
            var o := Options(Path(true, 6), Some(source), Path(true, 11), backup, Path(false, 1), Path(false, 2),
                             false, own, 1, 1, _ => 0);
            var files := map[source := Doc(1, 1, [rewritten], keys, 0, 0), backup := Doc(1, 1, [preserved], 0, 0, 0)];
            Decide(files, o).Install? && PathsApart(o) && NoneSortsFirst(o) && !Succeeds(files, o)
  {
    var own := Plugin(Waycloak, 2, 0, 0, true);
    var preserved, rewritten := Plugin(Primary, 1, 0, 0, true), Plugin(Primary, 1, numbers, 0, true);
    var source, backup := Path(true, 9), Path(true, 8);
    var o := Options(Path(true, 6), Some(source), Path(true, 11), backup, Path(false, 1), Path(false, 2),
                     false, own, 1, 1, _ => 0);
    var files := map[source := Doc(1, 1, [rewritten], keys, 0, 0), backup := Doc(1, 1, [preserved], 0, 0, 0)];
    assert Respelled([rewritten, own]) == Respelled([preserved, own]);
    assert Numbers([rewritten])[0] == numbers && Numbers([preserved])[0] == 0;
    var plain, chained := Doc(1, 1, [preserved], 0, 0, 0), Doc(1, 1, [preserved, own], 0, 0, 0);
    assert Decide(files, o) == Install(plain, chained, false, false);
    InstallationValidates(files, o);
  }

  /** A receipt that is put into the config directory and sorts first: the guard is lost
      with the last write, the validation fails, and no rerun is accepted any more. */
  lemma ReceiptLosesGuard()
    ensures var own, primary := Plugin(Waycloak, 2, 0, 0, true), Plugin(Primary, 1, 0, 0, true);
            var config, backup := Path(true, 6), Path(true, 8);
            var o := Options(config, None, Path(true, 11), backup, Path(false, 1), Path(true, 1),
                             false, own, 1, 1, _ => 0);
            var files := map[config := Doc(1, 1, [primary, own], 0, 0, 0), backup := Doc(1, 1, [primary], 0, 0, 0)];
            var d := Decide(files, o);
            && d.Install? && Guarded(files) && Guarded(AfterWrites(files, o, d, 4))
            && !Guarded(AfterWrites(files, o, d, 5))
            && !Succeeds(files, o) && Decide(AfterWrites(files, o, d, 5), o).Refuse?
  {
    var own, primary := Plugin(Waycloak, 2, 0, 0, true), Plugin(Primary, 1, 0, 0, true);
    var config, backup := Path(true, 6), Path(true, 8);
    var o := Options(config, None, Path(true, 11), backup, Path(false, 1), Path(true, 1),
                     false, own, 1, 1, _ => 0);
    var chained, plain := Doc(1, 1, [primary, own], 0, 0, 0), Doc(1, 1, [primary], 0, 0, 0);
    var files := map[config := chained, backup := plain];
    assert OwnAt(chained.plugins, own, 1);
    assert Render(plain, own) == Rendered.Rendered(chained, false);
    assert Decide(files, o) == Install(chained, chained, false, false);
    assert Shadows(files, config) && Chained(chained);
    GuardFromConfig(files, o);
    InstallationValidates(files, o);
    RerunConverges(files, o, 5);
  }

  // ---- The installer ----

  datatype Outcome = Done | Invalid | Halted | Stopped | Rejected

  class Installer {
    const o: Options
    var files: Files

    constructor (o: Options, files: Files)
      ensures this.o == o && this.files == files
    {
      this.o := o;
      this.files := files;
    }

    /** The reads and checks before the first write. */
    method Plan() returns (d: Decision)
      ensures d == Decide(files, o)
    {
      if !ValidOptions(o) || !IsConflist(o.config) || !SelectionFree(files, o.config) {
        return Refuse;
      }
      var configSource := if o.source.Some? then o.source.value else o.config;
      if !Reads(files, o, configSource) {
        return Refuse;
      }
      var original := files[configSource];
      var outcome := Render(original, o.own);
      if outcome.Refused? {
        return Refuse;
      }
      var rendered, alreadyInstalled := outcome.doc, outcome.alreadyInstalled;
      if o.source.None? {
        d := PlanInPlace(original, rendered, alreadyInstalled);
        return;
      }
      var restore := false;
      if alreadyInstalled {
        if !o.migrate || !Reads(files, o, o.legacyBackup) {
          return Refuse;
        }
        var backup := files[o.legacyBackup];
        var expected := Render(backup, o.own);
        if expected.Refused? || expected.alreadyInstalled || !JsonEqual(expected.doc, original) {
          return Refuse;
        }
        restore, original, rendered := true, backup, expected.doc;
      }
      if o.config in files && !Fits(o, files[o.config]) {
        return Refuse;
      }
      if o.backup in files {
        if !Fits(o, files[o.backup]) {
          return Refuse;
        }
        var expected := Render(files[o.backup], o.own);
        if expected.Refused? || expected.alreadyInstalled || !JsonEqual(expected.doc, rendered)
           || (o.config in files && expected.doc != files[o.config]) {
          return Refuse;
        }
        return Install(files[o.backup], expected.doc, false, restore);
      }
      if o.config in files {
        return Refuse;
      }
      return Install(original, rendered, true, restore);
    }

    method PlanInPlace(original: Doc, rendered: Doc, alreadyInstalled: bool) returns (d: Decision)
      requires o.config in files && original == files[o.config]
      requires Render(original, o.own) == Rendered.Rendered(rendered, alreadyInstalled)
      ensures d == DecideInPlace(files, o)
    {
      if !alreadyInstalled {
        if o.backup in files && !(Fits(o, files[o.backup]) && files[o.backup] == original) {
          return Refuse;
        }
        return Install(original, rendered, o.backup !in files, false);
      }
      if !Reads(files, o, o.backup) || Render(files[o.backup], o.own) != Rendered.Rendered(rendered, false) {
        return Refuse;
      }
      return Install(original, rendered, false, false);
    }

    /** Runs the installation, stopping after `crashAfter` writes, and ends with the
        validation of what it installed. */
    method Run(crashAfter: nat) returns (outcome: Outcome)
      modifies this
      ensures outcome == Rejected <==> Decide(old(files), o).Refuse?
      ensures outcome == Rejected ==> files == old(files)
      ensures outcome != Rejected ==>
                var d := Decide(old(files), o);
                && files == AfterWrites(old(files), o, d, if crashAfter < STAGES then crashAfter else STAGES)
                && (outcome == Halted <==> crashAfter >= 4 && Halts(o, d))
                && (outcome == Stopped <==> crashAfter < STAGES && outcome != Halted)
                && (outcome == Done <==> STAGES <= crashAfter && Installable(old(files), o))
    {
      var d := Plan();
      if d.Refuse? {
        return Rejected;
      }
      ghost var start := files;
      var legacySource := if o.source.Some? && o.source.value in files then files[o.source.value] else NotJson(0);
      if crashAfter == 0 {
        return Stopped;
      }
      if d.createBackup {
        files := files[o.backup := d.original];
      }
      assert files == AfterWrites(start, o, d, 1);
      if crashAfter == 1 {
        return Stopped;
      }
      files := files[o.executable := Executable(o.build)];
      assert files == AfterWrites(start, o, d, 2);
      if crashAfter == 2 {
        return Stopped;
      }
      files := files[o.config := d.rendered];
      assert files == AfterWrites(start, o, d, 3);
      InstallationValidates(start, o);
      if crashAfter == 3 {
        return Stopped;
      }
      if d.restoreSource && o.source.Some? {
        CurrentSource(start, o);
        var current := files[o.source.value];
        if JsonEqual(current, legacySource) {
          files := files[o.source.value := d.original];
        } else if !JsonEqual(current, d.original) {
          return Halted;
        }
      }
      assert files == AfterWrites(start, o, d, 4);
      if crashAfter == 4 {
        return Stopped;
      }
      files := files[o.receipt := ReceiptFor(o, d)];
      assert files == AfterWrites(start, o, d, 5);
      return if ValidInstallation(files, o) then Done else Invalid;
    }
  }

  /** What the migration finds at the source before it restores it. */
  lemma CurrentSource(files: Files, o: Options)
    requires Decide(files, o).Install? && Decide(files, o).restoreSource && o.source.Some?
    ensures var d := Decide(files, o);
            var three := AfterWrites(files, o, d, 3);
            && o.source.value in files && o.source.value in three
            && (if Halts(o, d) then !three[o.source.value].Doc?
              else JsonEqual(three[o.source.value], files[o.source.value]))
  {
    var d := Decide(files, o);
    DecisionSound(files, o);
    FilesAfter(files, o, d, 3);
  }
}
