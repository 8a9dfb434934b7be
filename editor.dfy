/** The incremental editing pipeline: engines kept in insertion order with
    an update flag each; a run re-processes the engines from the first
    flagged one on, each from its cached input. */
module Editor {
  import opened Common
  import opened Raster
  import EditDemosaicer
  import EditToneMapper
  import EditWhiteBalancer
  import EditRotator

  /** An engine the editor can hold: one of the edit stages. The white
      balancer carries the percentile it estimates white levels with. */
  datatype Stage =
    | Demosaic(demosaicer: EditDemosaicer.Demosaicer)
    | Tone(toneMapper: EditToneMapper.ToneMapper)
    | Balance(whiteBalancer: EditWhiteBalancer.WhiteBalancer, white: EditWhiteBalancer.Percentile)
    | Rotate(rotator: EditRotator.Rotator)
  {
    /** engine.name */
    function Name(): string {
      match this
      case Demosaic(d) => d.name
      case Tone(t) => t.name
      case Balance(w, _) => w.name
      case Rotate(r) => r.name
    }

    /** engine.process(image): the processed image and the engine as it is
        afterwards (the white balancer updates its engines' scales). */
    function Apply(image: Image): (r: Result<(Image, Stage)>)
      ensures Demosaic? ==> r == (match demosaicer.Process(image) case Ok(out) => Ok((out, this)) case Err(e) => Err(e))
      ensures Tone? ==> r == (match toneMapper.Process(image) case Ok(out) => Ok((out, this)) case Err(e) => Err(e))
      ensures Rotate? ==> r == (match rotator.Process(image) case Ok(out) => Ok((out, this)) case Err(e) => Err(e))
      ensures Balance? ==> (r.Ok? <==> whiteBalancer.Process(image, white).Ok?)
      ensures Balance? && r.Ok? ==>
        && r.value.0 == whiteBalancer.Process(image, white).value.0
        && r.value.1 == Balance(whiteBalancer.Process(image, white).value.1, white)
      ensures Balance? && r.Err? ==> r.error == whiteBalancer.Process(image, white).error
    {
      match this
      case Demosaic(d) => (match d.Process(image) case Ok(out) => Ok((out, this)) case Err(e) => Err(e))
      case Tone(t) => (match t.Process(image) case Ok(out) => Ok((out, this)) case Err(e) => Err(e))
      case Rotate(rot) => (match rot.Process(image) case Ok(out) => Ok((out, this)) case Err(e) => Err(e))
      case Balance(w, white) =>
        (match w.Process(image, white) case Ok((out, w')) => Ok((out, Balance(w', white))) case Err(e) => Err(e))
    }
  }

  /** How the editor runs an engine: engine.process(image), giving the
      processed image and the engine as it is afterwards. The editor calls
      nothing else of an engine but its name. */
  type Processor<!E> = (E, Image) -> Result<(Image, E)>

  /** The processor of the edit stages. */
  function StageProcessor(): Processor<Stage> {
    (s: Stage, image: Image) => s.Apply(image)
  }

  /** No name occurs twice: the keys of an ordered dictionary. */
  predicate Distinct(s: seq<string>) {
    |s| == 0 || (s[0] !in s[1..] && Distinct(s[1..]))
  }

  /** Appending a new name keeps the names distinct. */
  lemma {:induction false} DistinctAppend(s: seq<string>, x: string)
    requires Distinct(s) && x !in s
    ensures Distinct(s + [x])
  {
    if |s| > 0 {
      assert (s + [x])[1..] == s[1..] + [x];
      DistinctAppend(s[1..], x);
    }
  }

  /** Distinct names sit at distinct positions. */
  lemma {:induction false} DistinctIndices(s: seq<string>, i: nat, j: nat)
    requires Distinct(s) && i < j < |s|
    ensures s[i] != s[j]
  {
    if i == 0 {
      assert s[j] == s[1..][j - 1];
    } else {
      DistinctIndices(s[1..], i - 1, j - 1);
    }
  }

  /** Every name of the order has an update flag. */
  predicate Flagged(order: seq<string>, flags: map<string, bool>) {
    forall j | 0 <= j < |order| :: order[j] in flags
  }

  /** The position of the first flagged name, or the length of the order. */
  function FirstDirty(order: seq<string>, flags: map<string, bool>): (n: nat)
    requires Flagged(order, flags)
    ensures n <= |order|
    ensures forall j | 0 <= j < n :: !flags[order[j]]
    ensures n < |order| ==> flags[order[n]]
  {
    if |order| == 0 then 0
    else if flags[order[0]] then 0
    else
      var m := FirstDirty(order[1..], flags);
      assert forall j | 1 <= j < 1 + m :: order[j] == order[1..][j - 1];
      1 + m
  }

  /** The names get_engines_to_update returns: the suffix of the order that
      starts at the first flagged name; empty when no flag is set. */
  function DirtySuffix(order: seq<string>, flags: map<string, bool>): seq<string>
    requires Flagged(order, flags)
  {
    order[FirstDirty(order, flags)..]
  }

  /** The dirty suffix is a suffix of the order; it is empty exactly when
      no flag is set; it starts at a flagged name, and every name before it
      is clear. */
  lemma DirtySuffixSpec(order: seq<string>, flags: map<string, bool>)
    requires Flagged(order, flags)
    ensures var r := DirtySuffix(order, flags);
      && |r| <= |order| && r == order[|order| - |r|..]
      && (|r| > 0 <==> exists j | 0 <= j < |order| :: flags[order[j]])
      && (|r| > 0 ==> flags[r[0]])
      && forall j | 0 <= j < |order| - |r| :: !flags[order[j]]
  {
  }

  /** One step of the scan in get_engines_to_update: the name at i is
      collected exactly when it is the first flagged one or comes after it. */
  lemma DirtyStep(order: seq<string>, flags: map<string, bool>, i: nat)
    requires Flagged(order, flags) && i < |order|
    ensures var f := FirstDirty(order, flags);
      && (flags[order[i]] || f < i <==> f < i + 1)
      && (f < i + 1 ==> order[f..i + 1] == (if f < i then order[f..i] else []) + [order[i]])
  {
    var f := FirstDirty(order, flags);
    if i < f {
      assert !flags[order[i]];
    } else {
      assert order[f..i + 1] == order[f..i] + [order[i]];
    }
  }

  /** The loop of get_engines_to_update: one pass over the items of the
      update-state dictionary in order, collecting every name from the first
      flagged one on. */
  method ScanForUpdate(order: seq<string>, flags: map<string, bool>) returns (names: seq<string>)
    requires Flagged(order, flags)
    ensures names == order[FirstDirty(order, flags)..]
  {
    ghost var f := FirstDirty(order, flags);
    names := [];
    var update := false;
    var i := 0;
    while i < |order|
      invariant 0 <= i <= |order|
      invariant update <==> f < i
      invariant names == if f < i then order[f..i] else []
    {
      DirtyStep(order, flags, i);
      if flags[order[i]] || update {
        update := true;
        names := names + [order[i]];
      }
      i := i + 1;
    }
  }

  /** What a run reads and writes: the engines, the cached inputs, the
      update flags and the output image. */
  datatype RunState<E> = RunState(engines: map<string, E>, inputs: map<string, Image>,
                                  flags: map<string, bool>, output: Option<Image>)

  /** The loop of _process from a given name on: each engine processes its
      cached input (a deep copy, so the cache is not touched); the result is
      cached as the next engine's input, or becomes the output image after
      the last; the engine's flag is cleared. An exception stops the run
      with the state reached so far. */
  function RunChain<E>(process: Processor<E>, st: RunState<E>, names: seq<string>): (Option<Error>, RunState<E>)
    requires |names| > 0 ==> names[0] in st.inputs
    decreases |names|
  {
    if |names| == 0 then (None, st)
    else
      var n := names[0];
      if n !in st.engines then (Some(KeyError), st)
      else
        match process(st.engines[n], st.inputs[n])
        case Err(e) => (Some(e), st)
        case Ok((out, engine)) => RunChain(process, Advance(st, names, out, engine), names[1..])
  }

  /** One step of the loop: the engine names[0] replaced by its updated
      self, out cached as the next engine's input or kept as the output,
      the flag cleared. */
  function Advance<E>(st: RunState<E>, names: seq<string>, out: Image, engine: E): RunState<E>
    requires |names| > 0
  {
    RunState(st.engines[names[0] := engine],
             if |names| > 1 then st.inputs[names[1] := out] else st.inputs,
             st.flags[names[0] := false],
             if |names| > 1 then st.output else Some(out))
  }

  /** The run goes on past an engine that processed its input. */
  lemma RunChainStep<E>(process: Processor<E>, st: RunState<E>, names: seq<string>, out: Image, engine: E)
    requires |names| > 0 && names[0] in st.inputs && names[0] in st.engines
    requires process(st.engines[names[0]], st.inputs[names[0]]) == Ok((out, engine))
    ensures RunChain(process, st, names) == RunChain(process, Advance(st, names, out, engine), names[1..])
  {
  }

  /** The run stops, with the state as it was, at a missing engine or at
      one that raised. */
  lemma RunChainStops<E>(process: Processor<E>, st: RunState<E>, names: seq<string>)
    requires |names| > 0 && names[0] in st.inputs
    requires names[0] in st.engines ==> process(st.engines[names[0]], st.inputs[names[0]]).Err?
    ensures names[0] !in st.engines ==> RunChain(process, st, names) == (Some(KeyError), st)
    ensures names[0] in st.engines ==>
      RunChain(process, st, names) == (Some(process(st.engines[names[0]], st.inputs[names[0]]).error), st)
  {
  }

  /** The cache before the loop: the first engine to update falls back to
      the editor's input image when it has no cached input yet. */
  function Seed(inputs: map<string, Image>, names: seq<string>, inputImage: Image): (r: map<string, Image>)
    requires |names| > 0
    ensures names[0] in r && r[names[0]] == (if names[0] in inputs then inputs[names[0]] else inputImage)
    ensures forall k | k != names[0] :: (k in r <==> k in inputs) && (k in r ==> r[k] == inputs[k])
  {
    if names[0] in inputs then inputs else inputs[names[0] := inputImage]
  }

  /** The editor over engines of type E: process runs an engine, nameOf
      gives its name attribute. */
  class Editor<E> {
    const process: Processor<E>
    const nameOf: E -> string
    const name: string
    const inputImage: Image
    var inputs: map<string, Image>
    var engines: map<string, E>
    /** The keys of engines_update_state in insertion order. */
    var order: seq<string>
    /** engines_update_state */
    var flags: map<string, bool>
    var outputImage: Option<Image>

    /** The update-state dictionary: each key once, each with a flag. */
    ghost predicate Valid()
      reads this
    {
      Distinct(order) && Flagged(order, flags) && (forall k | k in flags :: k in order)
    }

    function State(): RunState<E>
      reads this
    {
      RunState(engines, inputs, flags, outputImage)
    }

    constructor (name: string, inputImage: Image, process: Processor<E>, nameOf: E -> string)
      ensures Valid()
      ensures this.process == process && this.nameOf == nameOf
      ensures this.name == name && this.inputImage == inputImage
      ensures inputs == map[] && engines == map[] && order == [] && flags == map[] && outputImage == None
    {
      this.process := process;
      this.nameOf := nameOf;
      this.name := name;
      this.inputImage := inputImage;
      inputs := map[];
      engines := map[];
      order := [];
      flags := map[];
      outputImage := None;
    }

    /** add_engine: stored under the given name or the engine's own; the
        flag is reset to False. A name already present keeps its place in
        the order and its engine is replaced. */
    method AddEngine(engine: E, engineName: Option<string>)
      requires Valid()
      modifies this
      ensures Valid()
      ensures var key := engineName.GetOr(nameOf(engine));
        && engines == old(engines)[key := engine]
        && flags == old(flags)[key := false]
        && order == (if key in old(flags) then old(order) else old(order) + [key])
      ensures inputs == old(inputs) && outputImage == old(outputImage)
    {
      var key := engineName.GetOr(nameOf(engine));
      engines := engines[key := engine];
      if key !in flags {
        DistinctAppend(order, key);
        order := order + [key];
      }
      flags := flags[key := false];
    }

    /** register_engine_for_update: the flag set to True; a name that was
        never added gets a flag of its own at the end of the order. */
    method RegisterEngineForUpdate(engineName: string)
      requires Valid()
      modifies this
      ensures Valid()
      ensures flags == old(flags)[engineName := true]
      ensures order == (if engineName in old(flags) then old(order) else old(order) + [engineName])
      ensures engines == old(engines) && inputs == old(inputs) && outputImage == old(outputImage)
    {
      if engineName !in flags {
        DistinctAppend(order, engineName);
        order := order + [engineName];
      }
      flags := flags[engineName := true];
    }

    /** get_engines_to_update on the update-state dictionary. */
    method GetEnginesToUpdate() returns (names: seq<string>)
      requires Valid()
      ensures names == DirtySuffix(order, flags)
    {
      names := ScanForUpdate(order, flags);
    }

    /** _process: an IndexError when no flag is set; otherwise the cache is
        seeded and the loop runs over the names from the first flagged one. */
    method Process() returns (err: Option<Error>)
      requires Valid()
      modifies this
      ensures Valid()
      ensures order == old(order) && flags.Keys == old(flags).Keys
      ensures var names := DirtySuffix(old(order), old(flags));
        if |names| == 0 then err == Some(IndexError) && State() == old(State())
        else (err, State()) == RunChain(process, old(State()).(inputs := Seed(old(inputs), names, inputImage)), names)
    {
      var names := GetEnginesToUpdate();
      if |names| == 0 {
        return Some(IndexError);
      }
      if names[0] !in inputs {
        inputs := inputs[names[0] := inputImage];
      }
      ghost var start := State();
      var i := 0;
      while i < |names|
        invariant 0 <= i <= |names| && order == old(order) && flags.Keys == old(flags).Keys
        invariant i < |names| ==> names[i] in inputs
        invariant RunChain(process, State(), names[i..]) == RunChain(process, start, names)
      {
        var n := names[i];
        ghost var rest, before := names[i..], State();
        assert rest[0] == n && n in flags;
        if n !in engines {
          RunChainStops(process, before, rest);
          return Some(KeyError);
        }
        var applied := process(engines[n], inputs[n]);
        if applied.Err? {
          RunChainStops(process, before, rest);
          return Some(applied.error);
        }
        var (out, engine) := applied.value;
        engines := engines[n := engine];
        if i < |names| - 1 {
          inputs := inputs[names[i + 1] := out];
        } else {
          outputImage := Some(out);
        }
        flags := flags[n := false];
        RunChainStep(process, before, rest, out, engine);
        assert |rest| > 1 ==> rest[1] == names[i + 1];
        assert State() == Advance(before, rest, out, engine);
        assert rest[1..] == names[i + 1..];
        i := i + 1;
      }
      err := None;
    }
  }

  /** A successful run clears the flag of every engine it ran and leaves
      the other flags alone. */
  lemma {:induction false} RunChainFlags<E>(process: Processor<E>, st: RunState<E>, names: seq<string>)
    requires |names| > 0 ==> names[0] in st.inputs
    requires RunChain(process, st, names).0.None?
    ensures var r := RunChain(process, st, names).1;
      forall k | k in names :: k in r.flags && !r.flags[k]
    ensures var r := RunChain(process, st, names).1;
      forall k | k !in names && k in st.flags :: k in r.flags && r.flags[k] == st.flags[k]
    ensures var r := RunChain(process, st, names).1;
      forall k | k in r.flags :: k in st.flags || k in names
    decreases |names|
  {
    if |names| > 0 {
      var n := names[0];
      var (out, engine) := process(st.engines[n], st.inputs[n]).value;
      var next := Advance(st, names, out, engine);
      RunChainStep(process, st, names, out, engine);
      RunChainFlags(process, next, names[1..]);
      forall k | k in names ensures k == n || k in names[1..] {
        if k != n {
          var j :| 0 <= j < |names| && names[j] == k;
          assert names[1..][j - 1] == k;
        }
      }
    }
  }

  /** Engines outside the run are neither run nor replaced, and their cached
      inputs are left as they were. */
  lemma {:induction false} RunChainKeepsOthers<E>(process: Processor<E>, st: RunState<E>, names: seq<string>, k: string)
    requires |names| > 0 ==> names[0] in st.inputs
    requires k !in names
    ensures var r := RunChain(process, st, names).1;
      k in st.engines ==> k in r.engines && r.engines[k] == st.engines[k]
    ensures var r := RunChain(process, st, names).1;
      k in st.inputs ==> k in r.inputs && r.inputs[k] == st.inputs[k]
    decreases |names|
  {
    if |names| > 0 && names[0] in st.engines && process(st.engines[names[0]], st.inputs[names[0]]).Ok? {
      var n := names[0];
      var (out, engine) := process(st.engines[n], st.inputs[n]).value;
      RunChainStep(process, st, names, out, engine);
      assert k !in names[1..];
      RunChainKeepsOthers(process, Advance(st, names, out, engine), names[1..], k);
    }
  }

  /** After a successful run every flag is False: the names before the first
      flagged one were clear already, and the run clears the rest. */
  lemma SuccessClearsAllFlags<E>(process: Processor<E>, order: seq<string>, st: RunState<E>)
    requires Flagged(order, st.flags) && forall k | k in st.flags :: k in order
    requires var names := DirtySuffix(order, st.flags); |names| > 0 && names[0] in st.inputs
    requires RunChain(process, st, DirtySuffix(order, st.flags)).0.None?
    ensures var r := RunChain(process, st, DirtySuffix(order, st.flags)).1;
      forall k | k in r.flags :: !r.flags[k]
  {
    var names := DirtySuffix(order, st.flags);
    var r := RunChain(process, st, names).1;
    DirtySuffixSpec(order, st.flags);
    RunChainFlags(process, st, names);
    forall k | k in r.flags ensures !r.flags[k] {
      if k !in names {
        var j :| 0 <= j < |order| && order[j] == k;
      }
    }
  }

  /** The editor's run as a whole: after a successful Process every update
      flag is False. */
  lemma ProcessClearsFlags<E>(e: Editor<E>, names: seq<string>, st: RunState<E>, inputImage: Image)
    requires forall k :: k in st.flags <==> k in e.order
    requires names == DirtySuffix(e.order, st.flags) && |names| > 0
    requires RunChain(e.process, st.(inputs := Seed(st.inputs, names, inputImage)), names).0.None?
    ensures var r := RunChain(e.process, st.(inputs := Seed(st.inputs, names, inputImage)), names).1;
      forall k | k in r.flags :: !r.flags[k]
  {
    SuccessClearsAllFlags(e.process, e.order, st.(inputs := Seed(st.inputs, names, inputImage)));
  }
}
