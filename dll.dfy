/** The package's entry point: DLL(dllPath) loads the library found in a
    directory once, wraps it in a base and a debug API object, and keeps
    the result in a class-wide registry keyed by the path, so that later
    calls with the same path get the same object back. */
module Dll {
  import opened Util
  import opened Api
  import Base
  import Debug

  /** MSP430_DLL: the name the library is loaded under. */
  const MSP430_DLL: string := "msp430"

  /** MSP_DLL: the directory searched when no path is given. */
  const MSP_DLL: string := "."

  /** The object DLL() hands out: its base and debug API objects and the
      library handle it was last given. */
  class DllObject {
    var base: ApiObject?
    var debug: ApiObject?
    var dll: Option<Library>

    /** object.__new__(DLL): no attributes yet. */
    constructor ()
      ensures base == null && debug == null && dll == None
    {
      base := null;
      debug := null;
      dll := None;
    }
  }

  /** Instance = namedtuple('Instance', 'klass dll'). */
  datatype Instance = Instance(klass: DllObject, dll: Library)

  /** Why DLL() raised. */
  datatype Failure =
    | LoadError
    | TypeError(message: string)

  datatype NewOutcome = Returns(obj: DllObject) | Raises(failure: Failure)

  /** The text loadedDlls gives for one cached library. */
  function DllText(path: string, name: string): (r: string)
    ensures |r| == |path| + |name| + 5
    ensures r[..|path|] == path
    ensures r[|path|..] == "\\" + name + ".dll"
  {
    var r := path + "\\" + name + ".dll";
    assert r == path + ("\\" + name + ".dll");
    r
  }

  /** Distinct paths give distinct texts for the same library name. */
  lemma DllTextInjective(p: string, q: string, name: string)
    requires DllText(p, name) == DllText(q, name)
    ensures p == q
  {
    var s := DllText(p, name);
    assert |s| == |p| + |name| + 5;
    assert |p| == |q|;
    assert p == s[..|p|] == q;
  }

  /** Lines 60-66 of DLL.__new__ as intended: a base and a debug API
      object, each with `klass` as parent, each after loadFunctions. */
  method AttachApis(klass: DllObject, dll: Library)
    modifies klass
    ensures klass.dll == old(klass.dll)
    ensures klass.base != null && fresh(klass.base)
    ensures klass.base.parent == klass && klass.base.dll == dll
    ensures klass.base.State() == Load(dll, LoadState([], map[]), Base.BaseFunctions).state
    ensures klass.debug != null && fresh(klass.debug)
    ensures klass.debug.parent == klass && klass.debug.dll == dll
    ensures klass.debug.State() == Load(dll, LoadState([], map[]), Debug.DebugFunctions).state
  {
    var baseApi := new ApiObject(klass, dll, Base.BaseFunctions);
    Base.BaseFunctionsLoad(dll, LoadState([], map[]));
    var baseError := baseApi.LoadFunctions();
    klass.base := baseApi;

    var debugApi := new ApiObject(klass, dll, Debug.DebugFunctions);
    Debug.DebugFunctionsLoad(dll, LoadState([], map[]));
    var debugError := debugApi.LoadFunctions();
    klass.debug := debugApi;
  }

  /** `texts` holds the text of every cached library and nothing else. */
  predicate ListsEveryPath(m: map<string, Instance>, texts: seq<string>)
  {
    (forall p :: p in m ==> DllText(p, m[p].dll.name) in texts) &&
    (forall i :: 0 <= i < |texts| ==> Listed(m, texts[i]))
  }

  /** `text` is the text of some cached library. */
  predicate Listed(m: map<string, Instance>, text: string)
  {
    exists p :: p in m && text == DllText(p, m[p].dll.name)
  }

  predicate NoTextTwice(texts: seq<string>)
  {
    forall i, j :: 0 <= i < j < |texts| ==> texts[i] != texts[j]
  }

  /** What a listing visited in any order of the keys says without that
      order: one text per cached path, and no text twice when every library
      has the same name. */
  lemma Listing(m: map<string, Instance>, result: seq<string>, order: seq<string>)
    requires |result| == |order|
    requires forall i, j :: 0 <= i < j < |order| ==> order[i] != order[j]
    requires forall p :: p in m <==> p in order
    requires forall i :: 0 <= i < |order| ==>
      order[i] in m && result[i] == DllText(order[i], m[order[i]].dll.name)
    ensures ListsEveryPath(m, result)
    ensures (forall p :: p in m ==> m[p].dll.name == MSP430_DLL) ==> NoTextTwice(result)
  {
    forall p | p in m ensures DllText(p, m[p].dll.name) in result {
      var i :| 0 <= i < |order| && order[i] == p;
      assert result[i] == DllText(p, m[p].dll.name);
    }
    forall i | 0 <= i < |result| ensures Listed(m, result[i]) {
      var p := order[i];
      assert p in m && result[i] == DllText(p, m[p].dll.name);
    }
    if forall p :: p in m ==> m[p].dll.name == MSP430_DLL {
      forall i, j | 0 <= i < j < |result| ensures result[i] != result[j] {
        if result[i] == result[j] {
          assert order[i] in m && order[j] in m;
          assert result[i] == DllText(order[i], MSP430_DLL);
          assert result[j] == DllText(order[j], MSP430_DLL);
          DllTextInjective(order[i], order[j], MSP430_DLL);
        }
      }
      assert NoTextTwice(result);
    }
  }

  /** The class DLL with its class-wide dictionary _dllInstances. */
  class DllRegistry {
    var dllInstances: map<string, Instance>

    /** `_dllInstances = {}` when the class is defined. */
    constructor ()
      ensures dllInstances == map[]
      ensures Valid()
    {
      dllInstances := map[];
    }

    /** Every cached library was loaded under MSP430_DLL. */
    predicate Valid()
      reads this
    {
      forall p :: p in dllInstances ==> dllInstances[p].dll.name == MSP430_DLL
    }

    /** DLL.__new__(cls, dllPath) as written. A cached path returns its
        object after resetting the object's dll attribute. For a new path,
        _loadDll may raise; if it does not, `BaseAPI(dll)` passes one
        argument to the two-parameter API.__init__ and raises TypeError
        (and `DebugAPI` is not imported into the module either), so the
        registry never gains an entry. `exports` stands for what _loadDll
        finds: None when it raises. */
    method NewAsWritten(dllPath: string, exports: Option<set<string>>) returns (r: NewOutcome)
      modifies if dllPath in dllInstances then {dllInstances[dllPath].klass} else {}
      ensures dllInstances == old(dllInstances)
      ensures dllPath in old(dllInstances) ==>
        r == Returns(old(dllInstances)[dllPath].klass) && r.obj.dll == Some(old(dllInstances)[dllPath].dll)
      ensures dllPath in old(dllInstances) ==>
        var k := old(dllInstances)[dllPath].klass; k.base == old(k.base) && k.debug == old(k.debug)
      ensures dllPath !in old(dllInstances) ==> r.Raises?
      ensures dllPath !in old(dllInstances) && exports.Some? ==> r.failure.TypeError?
    {
      if dllPath !in dllInstances {
        var klass := new DllObject();
        if exports.None? {
          return Raises(LoadError);
        }
        return Raises(TypeError("__init__() takes exactly 3 arguments (2 given)"));
      }
      var inst := dllInstances[dllPath];
      inst.klass.dll := Some(inst.dll);
      r := Returns(inst.klass);
    }

    /** DLL.__new__(cls, dllPath) as evidently intended: for a new path each
        API object gets the new DLL object as its parent and loads its
        FUNCTIONS table; the pair is cached under the path. Both tables are
        well-formed, so loadFunctions cannot raise. A cached path returns
        its object, and its dll attribute is reset to the cached library. */
    method New(dllPath: string, exports: Option<set<string>>) returns (r: NewOutcome)
      modifies this, if dllPath in dllInstances then {dllInstances[dllPath].klass} else {}
      ensures old(dllInstances).Keys <= dllInstances.Keys
      ensures forall p :: p in old(dllInstances) ==> dllInstances[p] == old(dllInstances)[p]
      ensures old(Valid()) ==> Valid()
      ensures dllPath in old(dllInstances) ==>
        dllInstances == old(dllInstances) && r == Returns(old(dllInstances)[dllPath].klass)
        && r.obj.dll == Some(old(dllInstances)[dllPath].dll)
      ensures dllPath in old(dllInstances) ==>
        var k := old(dllInstances)[dllPath].klass; k.base == old(k.base) && k.debug == old(k.debug)
      ensures dllPath !in old(dllInstances) && exports.None? ==>
        r == Raises(LoadError) && dllInstances == old(dllInstances)
      ensures dllPath !in old(dllInstances) && exports.Some? ==>
        var library := Library(MSP430_DLL, exports.value);
        r.Returns? && fresh(r.obj)
        && dllInstances == old(dllInstances)[dllPath := Instance(r.obj, library)]
        && r.obj.dll == Some(library)
        && r.obj.base != null && fresh(r.obj.base)
        && r.obj.base.parent == r.obj && r.obj.base.dll == library
        && r.obj.base.State() == Load(library, LoadState([], map[]), Base.BaseFunctions).state
        && r.obj.debug != null && fresh(r.obj.debug)
        && r.obj.debug.parent == r.obj && r.obj.debug.dll == library
        && r.obj.debug.State() == Load(library, LoadState([], map[]), Debug.DebugFunctions).state
    {
      if dllPath !in dllInstances {
        var klass := new DllObject();
        if exports.None? {
          return Raises(LoadError);
        }
        var dll := Library(MSP430_DLL, exports.value);
        AttachApis(klass, dll);
        dllInstances := dllInstances[dllPath := Instance(klass, dll)];
      }
      var inst := dllInstances[dllPath];
      inst.klass.dll := Some(inst.dll);
      r := Returns(inst.klass);
    }

    /** DLL.loadedDlls(): one "{path}\{name}.dll" per cached library, in
        the dictionary's iteration order, which Python leaves open; `order`
        is the order the paths were visited in. */
    method LoadedDlls() returns (result: seq<string>, ghost order: seq<string>)
      ensures |result| == |dllInstances.Keys|
      ensures ListsEveryPath(dllInstances, result)
      ensures Valid() ==> NoTextTwice(result)
      ensures |order| == |result|
      ensures forall i, j :: 0 <= i < j < |order| ==> order[i] != order[j]
      ensures forall p :: p in dllInstances <==> p in order
      ensures forall i :: 0 <= i < |order| ==>
        order[i] in dllInstances && result[i] == DllText(order[i], dllInstances[order[i]].dll.name)
    {
      result := [];
      order := [];
      var remaining := dllInstances.Keys;
      while remaining != {}
        invariant remaining <= dllInstances.Keys
        invariant forall p :: p in dllInstances <==> p in remaining || p in order
        invariant forall p :: p in order ==> p !in remaining
        invariant forall i, j :: 0 <= i < j < |order| ==> order[i] != order[j]
        invariant |result| == |order|
        invariant |order| + |remaining| == |dllInstances.Keys|
        invariant forall i :: 0 <= i < |order| ==>
          order[i] in dllInstances && result[i] == DllText(order[i], dllInstances[order[i]].dll.name)
        decreases remaining
      {
        var path :| path in remaining;
        var inst := dllInstances[path];
        result := result + [DllText(path, inst.dll.name)];
        order := order + [path];
        assert |remaining - {path}| == |remaining| - 1;
        remaining := remaining - {path};
      }
      Listing(dllInstances, result, order);
    }
  }
}
