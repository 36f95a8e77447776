/** The demo's dictionaries of dispatcher callbacks, looked up by the name of
    a pipeline alternative. Fast and general dispatchers live in two
    independent dictionaries, so the same name may be registered in both;
    each `NVPRO_PYRAMID_ADD_*_DISPATCHER` is one insertion made while the
    program starts. */
module DispatcherRegistry {
  import opened Optional
  import opened Dispatchers

  /** The fast dispatchers the demo and the extra pipelines register. */
  function RegisteredFast(): map<string, FastDispatcher>
  {
    map[
      "default" := DefaultFast(4, 6),
      "levels_1_5" := DefaultFast(2, 5),
      "levels_1_6" := DefaultFast(2, 6),
      "null" := FastNull,
      "workgroup1024" := Workgroup1024(2, 6),
      "noshared" := NoShared(2, 3),
      "quadshared" := QuadShared(4),
      "quadsharedmin1" := QuadShared(2),
      "quad3" := Quad3,
      "quad4" := Quad4,
      "fixed3levels" := Fixed3Levels,
      "onelevel" := FastOneLevel
    ]
  }

  /** The general dispatchers the demo and the extra pipelines register. */
  function RegisteredGeneral(): map<string, GeneralDispatcher>
  {
    map[
      "default" := DefaultGeneral,
      "null" := GeneralNull,
      "general2" := General2(2),
      "general2max1" := General2(1),
      "general2s" := General2S(2),
      "general2smax1" := General2S(1),
      "general3level" := General3Level,
      "onelevel" := GeneralOneLevel,
      "baseline" := Baseline
    ]
  }

  class Registry {
    var fast: map<string, FastDispatcher>
    var general: map<string, GeneralDispatcher>

    /** Every dispatcher in either dictionary is an instance its
        `static_assert`s admit. */
    predicate Valid()
      reads this
    {
      && (forall n :: n in fast ==> FastWf(fast[n]))
      && (forall n :: n in general ==> GeneralWf(general[n]))
    }

    /** Both dictionaries as the static initialisers leave them. */
    constructor ()
      ensures fast == RegisteredFast() && general == RegisteredGeneral()
      ensures Valid()
    {
      fast := map[];
      general := map[];
      new;
      AddFast("default", DefaultFast(4, 6));
      AddFast("levels_1_5", DefaultFast(2, 5));
      AddFast("levels_1_6", DefaultFast(2, 6));
      AddGeneral("default", DefaultGeneral);
      AddFast("null", FastNull);
      AddGeneral("null", GeneralNull);
      AddFast("workgroup1024", Workgroup1024(2, 6));
      AddFast("noshared", NoShared(2, 3));
      AddFast("quadshared", QuadShared(4));
      AddFast("quadsharedmin1", QuadShared(2));
      AddFast("quad3", Quad3);
      AddFast("quad4", Quad4);
      AddFast("fixed3levels", Fixed3Levels);
      AddFast("onelevel", FastOneLevel);
      AddGeneral("general2", General2(2));
      AddGeneral("general2max1", General2(1));
      AddGeneral("general2s", General2S(2));
      AddGeneral("general2smax1", General2S(1));
      AddGeneral("general3level", General3Level);
      AddGeneral("onelevel", GeneralOneLevel);
      AddGeneral("baseline", Baseline);
      RegisteredWellFormed();
    }

    /** `NvproPyramidFastDispatcherAdder`: a name registered again now maps
        to the later dispatcher; the general dictionary is untouched. */
    method AddFast(name: string, d: FastDispatcher)
      modifies this
      ensures fast == old(fast)[name := d] && general == old(general)
    {
      fast := fast[name := d];
    }

    /** `NvproPyramidGeneralDispatcherAdder`. */
    method AddGeneral(name: string, d: GeneralDispatcher)
      modifies this
      ensures general == old(general)[name := d] && fast == old(fast)
    {
      general := general[name := d];
    }

    /** `getFastDispatcher`: the registered dispatcher, or a null function
        pointer for an unknown name. */
    function GetFast(name: string): (r: Option<FastDispatcher>)
      reads this
      ensures r.Some? <==> name in fast
      ensures r.Some? ==> r.value == fast[name]
    {
      if name in fast then Some(fast[name]) else None
    }

    /** `getGeneralDispatcher`. */
    function GetGeneral(name: string): (r: Option<GeneralDispatcher>)
      reads this
      ensures r.Some? <==> name in general
      ensures r.Some? ==> r.value == general[name]
    {
      if name in general then Some(general[name]) else None
    }
  }

  /** Every registered dispatcher is an instance its `static_assert`s
      admit, so the scheduler's contracts about dispatchers apply to it. */
  lemma RegisteredWellFormed()
    ensures forall n :: n in RegisteredFast() ==> FastWf(RegisteredFast()[n])
    ensures forall n :: n in RegisteredGeneral() ==> GeneralWf(RegisteredGeneral()[n])
  {
  }

  /** "default", "null" and "onelevel" name a dispatcher of each kind, and
      they are different dispatchers; the special names "none" and "blit"
      are registered in neither dictionary. */
  lemma RegisteredNames()
    ensures RegisteredFast()["default"] == DefaultFast(4, 6) && RegisteredGeneral()["default"] == DefaultGeneral
    ensures RegisteredFast()["null"] == FastNull && RegisteredGeneral()["null"] == GeneralNull
    ensures "onelevel" in RegisteredFast() && "onelevel" in RegisteredGeneral()
    ensures "none" !in RegisteredFast() && "blit" !in RegisteredFast()
    ensures "none" !in RegisteredGeneral() && "blit" !in RegisteredGeneral()
  {
  }
}
