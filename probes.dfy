/**
  The instrumentation modules ("tracers") as the provider sees them, and the two
  computations over their Go probe tables: the union of every requested function
  name, and the filter that keeps a tracer only when the inspected binary has all
  of its required functions.
 */
module Probes {

  /** The closed set of tracers: net/http, Gin, gRPC, Go runtime, and the generic
      kernel/socket-filter HTTP tracer used when the target is not a Go program. */
  datatype TracerKind = NetHttp | GinHttp | Grpc | GoRuntime | HttpFilter

  /** What a tracer asks for one Go function: whether the tracer is useless without
      it, and whether it brings an entry and a return program. */
  datatype FunctionPrograms = FunctionPrograms(required: bool, hasStart: bool, hasEnd: bool)

  /** A tracer, reduced to its kind and its `GoProbes()` table. */
  datatype Tracer = Tracer(kind: TracerKind, goProbes: map<string, FunctionPrograms>)

  /** Where a discovered function starts and returns in the executable. */
  datatype FuncOffsets = FuncOffsets(start: nat, returnOffsets: seq<nat>)

  /** The offsets found in a Go executable, keyed by function name. */
  datatype Offsets = Offsets(funcs: map<string, FuncOffsets>)

  /** The generic tracer that replaces the Go tracers when no Go offsets exist. */
  const GenericTracer: Tracer := Tracer(HttpFilter, map[])

  function Elements<T>(s: seq<T>): set<T>
  {
    set x | x in s
  }

  predicate NoDuplicates<T(==)>(s: seq<T>)
  {
    forall k, l :: 0 <= k < l < |s| ==> s[k] != s[l]
  }

  /** The function names requested by the first `n` tracers of `ps`. */
  function NamesOf(ps: seq<Tracer>, n: nat): set<string>
    requires n <= |ps|
  {
    if n == 0 then {} else NamesOf(ps, n - 1) + ps[n - 1].goProbes.Keys
  }

  /** NamesOf is the union of the `GoProbes()` keys of the first `n` tracers. */
  lemma {:induction false} NamesOfMembers(ps: seq<Tracer>, n: nat)
    requires n <= |ps|
    ensures forall f :: f in NamesOf(ps, n) <==> exists j :: 0 <= j < n && f in ps[j].goProbes
  {
    if n > 0 {
      NamesOfMembers(ps, n - 1);
      forall f | f in NamesOf(ps, n) ensures exists j :: 0 <= j < n && f in ps[j].goProbes {
        if f in ps[n - 1].goProbes {
          assert 0 <= n - 1 < n && f in ps[n - 1].goProbes;
        } else {
          assert f in NamesOf(ps, n - 1);
        }
      }
    }
  }

  lemma {:induction false} NamesOfMonotone(ps: seq<Tracer>, m: nat, n: nat)
    requires m <= n <= |ps|
    ensures NamesOf(ps, m) <= NamesOf(ps, n)
    decreases n - m
  {
    if m < n {
      NamesOfMonotone(ps, m, n - 1);
    }
  }

  /** `name` is requested by tracer `i` and by none before it. */
  predicate IntroducedBy(ps: seq<Tracer>, name: string, i: int)
  {
    0 <= i < |ps| && name in ps[i].goProbes && name !in NamesOf(ps, i)
  }

  /** Every name of `r` requested by the first `j` tracers (for any `j <= n`) comes
      before every name of `r` that they do not request. */
  predicate PrefixClosed(ps: seq<Tracer>, n: nat, r: seq<string>)
    requires n <= |ps|
  {
    forall j, k, l :: 0 <= j <= n && 0 <= k < l < |r| && r[l] in NamesOf(ps, j) ==> r[k] in NamesOf(ps, j)
  }

  lemma IntroductionOrder(ps: seq<Tracer>, r: seq<string>)
    requires PrefixClosed(ps, |ps|, r)
    ensures forall k, l, i, j ::
      0 <= k < |r| && 0 <= l < |r| && IntroducedBy(ps, r[k], i) && IntroducedBy(ps, r[l], j) && i < j ==> k < l
  {
    forall k, l, i, j |
      0 <= k < |r| && 0 <= l < |r| && IntroducedBy(ps, r[k], i) && IntroducedBy(ps, r[l], j) && i < j
      ensures k < l
    {
      NamesOfMonotone(ps, i + 1, j);
      assert r[k] in NamesOf(ps, i + 1);
      assert r[k] in NamesOf(ps, j) && r[l] !in NamesOf(ps, j);
    }
  }

  /** The state of allFunctionNames after the first `n` tracers: `unique` is the
      set of names in `r`, which are those tracers' names, each once, in order of
      introduction. */
  ghost predicate Collected(ps: seq<Tracer>, n: nat, unique: set<string>, r: seq<string>)
  {
    n <= |ps| && unique == Elements(r) && unique == NamesOf(ps, n) && NoDuplicates(r) && PrefixClosed(ps, n, r)
  }

  /** The state of allFunctionNames inside tracer `n`, with the keys of `pending`
      still to be visited. */
  ghost predicate Collecting(ps: seq<Tracer>, n: nat, pending: set<string>, unique: set<string>, r: seq<string>)
  {
    && n < |ps|
    && pending <= ps[n].goProbes.Keys
    && unique == Elements(r)
    && unique == NamesOf(ps, n) + (ps[n].goProbes.Keys - pending)
    && NoDuplicates(r)
    && PrefixClosed(ps, n, r)
  }

  lemma CollectingStart(ps: seq<Tracer>, n: nat, unique: set<string>, r: seq<string>)
    requires Collected(ps, n, unique, r) && n < |ps|
    ensures Collecting(ps, n, ps[n].goProbes.Keys, unique, r)
  {
  }

  /** Visiting one key: a name not seen before is appended, a seen one skipped. */
  lemma CollectingStep(ps: seq<Tracer>, n: nat, pending: set<string>, unique: set<string>, r: seq<string>, name: string)
    requires Collecting(ps, n, pending, unique, r) && name in pending
    ensures name !in unique ==> Collecting(ps, n, pending - {name}, unique + {name}, r + [name])
    ensures name in unique ==> Collecting(ps, n, pending - {name}, unique, r)
  {
    if name !in unique {
      forall j | 0 <= j <= n ensures name !in NamesOf(ps, j) {
        NamesOfMonotone(ps, j, n);
      }
      assert Elements(r + [name]) == Elements(r) + {name};
    }
  }

  lemma CollectingEnd(ps: seq<Tracer>, n: nat, unique: set<string>, r: seq<string>)
    requires Collecting(ps, n, {}, unique, r)
    ensures Collected(ps, n + 1, unique, r)
  {
    forall k | 0 <= k < |r| ensures r[k] in NamesOf(ps, n + 1) {
      assert r[k] in Elements(r);
    }
  }

  /** allFunctionNames: every name any tracer asks for, once, grouped by the tracer
      that first asks for it. Within one tracer the order is that of Go's map
      iteration, which is unspecified: the loop below picks keys arbitrarily. */
  method AllFunctionNames(programs: seq<Tracer>) returns (functions: seq<string>)
    ensures NoDuplicates(functions)
    ensures Elements(functions) == NamesOf(programs, |programs|)
    ensures forall k, l, i, j ::
      (0 <= k < |functions| && 0 <= l < |functions| &&
       IntroducedBy(programs, functions[k], i) && IntroducedBy(programs, functions[l], j) && i < j) ==> k < l
  {
    var uniqueFunctions: set<string> := {};
    functions := [];
    for i := 0 to |programs|
      invariant Collected(programs, i, uniqueFunctions, functions)
    {
      var pending := programs[i].goProbes.Keys;
      CollectingStart(programs, i, uniqueFunctions, functions);
      while pending != {}
        invariant Collecting(programs, i, pending, uniqueFunctions, functions)
        decreases |pending|
      {
        var funcName :| funcName in pending;
        CollectingStep(programs, i, pending, uniqueFunctions, functions, funcName);
        if funcName !in uniqueFunctions {
          uniqueFunctions := uniqueFunctions + {funcName};
          functions := functions + [funcName];
        }
        pending := pending - {funcName};
      }
      CollectingEnd(programs, i, uniqueFunctions, functions);
    }
    IntroductionOrder(programs, functions);
  }

  /** The functions a tracer cannot work without. */
  function RequiredNames(t: Tracer): set<string>
  {
    set f | f in t.goProbes && t.goProbes[f].required
  }

  /** A tracer applies to an executable when all its required functions were found. */
  predicate Applicable(t: Tracer, funcs: map<string, FuncOffsets>)
  {
    RequiredNames(t) <= funcs.Keys
  }

  /** The tracers of `ps` that apply, in their original order. */
  function Filtered(ps: seq<Tracer>, funcs: map<string, FuncOffsets>): (r: seq<Tracer>)
    ensures forall t :: t in r <==> t in ps && Applicable(t, funcs)
    ensures |r| <= |ps|
  {
    if ps == [] then []
    else
      var last := ps[|ps| - 1];
      assert ps == ps[..|ps| - 1] + [last];
      Filtered(ps[..|ps| - 1], funcs) + (if Applicable(last, funcs) then [last] else [])
  }

  /** `sub` is `s` with some elements left out, the others kept in order. */
  predicate IsSubsequence<T(==)>(sub: seq<T>, s: seq<T>)
    decreases |s|
  {
    sub == [] ||
    (s != [] &&
     (IsSubsequence(sub, s[..|s| - 1]) ||
      (sub[|sub| - 1] == s[|s| - 1] && IsSubsequence(sub[..|sub| - 1], s[..|s| - 1]))))
  }

  lemma {:induction false} FilteredIsSubsequence(ps: seq<Tracer>, funcs: map<string, FuncOffsets>)
    ensures IsSubsequence(Filtered(ps, funcs), ps)
  {
    if ps != [] {
      var init, last := ps[..|ps| - 1], ps[|ps| - 1];
      FilteredIsSubsequence(init, funcs);
      var r := Filtered(ps, funcs);
      assert ps[..|ps| - 1] == init;
      if Applicable(last, funcs) {
        assert r[|r| - 1] == last && r[..|r| - 1] == Filtered(init, funcs);
      } else {
        assert r == Filtered(init, funcs);
        assert IsSubsequence(r, ps[..|ps| - 1]);
      }
    }
  }

  /** A function that no tracer marks as required never removes a tracer. */
  lemma OptionalProbesNeverExclude(t: Tracer, funcs: map<string, FuncOffsets>, name: string, probe: FunctionPrograms)
    requires !probe.required
    requires name !in t.goProbes
    ensures Applicable(t.(goProbes := t.goProbes[name := probe]), funcs) == Applicable(t, funcs)
  {
    var t' := t.(goProbes := t.goProbes[name := probe]);
    assert RequiredNames(t') == RequiredNames(t);
  }

  /** filterNotFoundPrograms: keep a tracer unless one of its required functions is
      missing from the offsets; optional functions never matter. */
  method FilterNotFoundPrograms(programs: seq<Tracer>, offsets: Offsets) returns (filtered: seq<Tracer>)
    ensures filtered == Filtered(programs, offsets.funcs)
  {
    filtered := [];
    var funcs := offsets.funcs;
    label programs:
    for i := 0 to |programs|
      invariant filtered == Filtered(programs[..i], funcs)
    {
      var p := programs[i];
      assert programs[..i + 1] == programs[..i] + [p];
      var pending := p.goProbes.Keys;
      while pending != {}
        invariant pending <= p.goProbes.Keys
        invariant forall fn :: fn in RequiredNames(p) && fn !in pending ==> fn in funcs
        decreases |pending|
      {
        var fn :| fn in pending;
        if !p.goProbes[fn].required {
          pending := pending - {fn};
          continue;
        }
        if fn !in funcs {
          assert !Applicable(p, funcs);
          continue programs;
        }
        pending := pending - {fn};
      }
      filtered := filtered + [p];
    }
    assert programs[..|programs|] == programs;
  }
}
