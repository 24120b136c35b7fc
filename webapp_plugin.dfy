/** webapp/src/index.js: the webapp plugin registers its own component for
    survey posts while the window has room for it, and removes it when the room
    goes away. */
module WebappPlugin {
  import opened Text
  import opened Selectors

  /** POST_NPS_SURVEY, the post type the component renders. webapp/src/constants.js
      is not part of this model, so the value here is a stand-in. */
  const PostNpsSurvey: string := "custom_nps_survey"

  datatype RegistryCall = RegisterPostTypeComponent(postType: string, id: string) | UnregisterPostTypeComponent(id: string)

  /** The webapp's plugin registry: the calls made to it. The ids it hands out
      are modelled as numbered, never empty, strings. */
  class Registry {
    var calls: seq<RegistryCall>
    var issued: nat

    constructor ()
      ensures calls == [] && issued == 0
    {
      calls := [];
      issued := 0;
    }

    static function ComponentId(n: nat): (id: string)
      ensures id != ""
    {
      "component-" + DecimalString(n)
    }

    method RegisterComponent(postType: string) returns (id: string)
      modifies this
      ensures id == ComponentId(old(issued)) && issued == old(issued) + 1
      ensures calls == old(calls) + [RegisterPostTypeComponent(postType, id)]
    {
      id := ComponentId(issued);
      issued := issued + 1;
      calls := calls + [RegisterPostTypeComponent(postType, id)];
    }

    method UnregisterComponent(id: string)
      modifies this
      ensures calls == old(calls) + [UnregisterPostTypeComponent(id)] && issued == old(issued)
    {
      calls := calls + [UnregisterPostTypeComponent(id)];
    }
  }

  /** Whether registerSurveyPost registers, unregisters or does nothing, given
      whether the component was in use and whether it should be. */
  datatype Change = Register | Unregister | Keep

  function ChangeFor(overriding: bool, use: bool): (c: Change)
    ensures c == Register <==> use && !overriding
    ensures c == Unregister <==> !use && overriding
    ensures c == Keep <==> use == overriding
  {
    if use && !overriding then Register else if !use && overriding then Unregister else Keep
  }

  /** The changes made over a run of answers of useSurveyPost, from `overriding`. */
  function Changes(overriding: bool, uses: seq<bool>): seq<Change>
    decreases |uses|
  {
    if uses == [] then []
    else
      var c := ChangeFor(overriding, uses[0]);
      (if c == Keep then [] else [c]) + Changes(uses[0], uses[1..])
  }

  /** Over any run of answers, registering and unregistering alternate, the
      first change undoes the starting state, and the last leaves the component
      registered exactly when the last answer says it fits. */
  lemma ChangesAlternate(overriding: bool, uses: seq<bool>)
    ensures var cs := Changes(overriding, uses);
            && (forall i :: 0 <= i < |cs| ==> cs[i] != Keep)
            && (forall i :: 0 <= i < |cs| - 1 ==> cs[i] != cs[i + 1])
            && (cs != [] ==> cs[0] == if overriding then Unregister else Register)
            && (cs != [] ==> cs[|cs| - 1] == if uses[|uses| - 1] then Register else Unregister)
            && (cs == [] <==> forall i :: 0 <= i < |uses| ==> uses[i] == overriding)
  {
    ChangesNeverKeep(overriding, uses);
    ChangesNeighboursDiffer(overriding, uses);
    ChangesLast(overriding, uses);
    ChangesNone(overriding, uses);
  }

  /** Changes unfolded once: the change of the first answer, then those of the rest. */
  lemma ChangesUnfold(overriding: bool, uses: seq<bool>)
    requires uses != []
    ensures var c := ChangeFor(overriding, uses[0]);
            Changes(overriding, uses) == (if c == Keep then [] else [c]) + Changes(uses[0], uses[1..])
  {
  }

  lemma {:induction false} ChangesNeverKeep(overriding: bool, uses: seq<bool>)
    ensures forall i :: 0 <= i < |Changes(overriding, uses)| ==> Changes(overriding, uses)[i] != Keep
    decreases |uses|
  {
    if uses != [] {
      ChangesUnfold(overriding, uses);
      ChangesNeverKeep(uses[0], uses[1..]);
      var rest := Changes(uses[0], uses[1..]);
      var cs := Changes(overriding, uses);
      var c := ChangeFor(overriding, uses[0]);
      if c != Keep {
        assert forall i :: 1 <= i < |cs| ==> cs[i] == rest[i - 1];
      }
    }
  }

  /** The first change undoes the starting state. */
  lemma {:induction false} ChangesFirst(overriding: bool, uses: seq<bool>)
    ensures var cs := Changes(overriding, uses);
            cs != [] ==> cs[0] == if overriding then Unregister else Register
    decreases |uses|
  {
    if uses != [] {
      ChangesUnfold(overriding, uses);
      if ChangeFor(overriding, uses[0]) == Keep {
        ChangesFirst(uses[0], uses[1..]);
      }
    }
  }

  lemma {:induction false} ChangesNeighboursDiffer(overriding: bool, uses: seq<bool>)
    ensures var cs := Changes(overriding, uses);
            forall i :: 0 <= i < |cs| - 1 ==> cs[i] != cs[i + 1]
    decreases |uses|
  {
    if uses != [] {
      ChangesUnfold(overriding, uses);
      ChangesNeighboursDiffer(uses[0], uses[1..]);
      var rest := Changes(uses[0], uses[1..]);
      var cs := Changes(overriding, uses);
      var c := ChangeFor(overriding, uses[0]);
      if c != Keep {
        ChangesFirst(uses[0], uses[1..]);
        assert forall i :: 1 <= i < |cs| ==> cs[i] == rest[i - 1];
      }
    }
  }

  /** The last change leaves the component as the last answer says. */
  lemma {:induction false} ChangesLast(overriding: bool, uses: seq<bool>)
    ensures var cs := Changes(overriding, uses);
            cs != [] ==> cs[|cs| - 1] == if uses[|uses| - 1] then Register else Unregister
    decreases |uses|
  {
    if uses != [] {
      ChangesUnfold(overriding, uses);
      ChangesLast(uses[0], uses[1..]);
      var rest := Changes(uses[0], uses[1..]);
      var cs := Changes(overriding, uses);
      if rest == [] {
        ChangesNone(uses[0], uses[1..]);
        if |uses| > 1 {
          assert uses[|uses| - 1] == uses[1..][|uses| - 2];
        }
      } else {
        assert cs[|cs| - 1] == rest[|rest| - 1];
        assert uses[1..][|uses[1..]| - 1] == uses[|uses| - 1];
      }
    }
  }

  /** Nothing changes exactly when every answer agrees with the starting state. */
  lemma {:induction false} ChangesNone(overriding: bool, uses: seq<bool>)
    ensures Changes(overriding, uses) == [] <==> forall i :: 0 <= i < |uses| ==> uses[i] == overriding
    decreases |uses|
  {
    if uses != [] {
      ChangesUnfold(overriding, uses);
      ChangesNone(uses[0], uses[1..]);
      assert forall i :: 1 <= i < |uses| ==> uses[i] == uses[1..][i - 1];
    }
  }

  /** The webapp plugin's registration state. */
  class Plugin {
    var overrideSurveyPost: bool
    var surveyPostComponentId: string

    /** An id is kept exactly while the component is registered. */
    ghost predicate Valid()
      reads this
    {
      surveyPostComponentId == "" <==> !overrideSurveyPost
    }

    constructor ()
      ensures Valid() && !overrideSurveyPost && surveyPostComponentId == ""
    {
      overrideSurveyPost := false;
      surveyPostComponentId := "";
    }

    /** registerSurveyPost: register only when the post newly fits, unregister
        the stored id only when it newly does not; afterwards overrideSurveyPost
        is useSurveyPost's answer. */
    method RegisterSurveyPost(registry: Registry, state: State)
      requires Valid()
      modifies this, registry
      ensures Valid()
      ensures overrideSurveyPost == UseSurveyPost(state)
      ensures var c := ChangeFor(old(overrideSurveyPost), UseSurveyPost(state));
              && (c == Register ==>
                    registry.calls == old(registry.calls) + [RegisterPostTypeComponent(PostNpsSurvey, surveyPostComponentId)]
                    && surveyPostComponentId == Registry.ComponentId(old(registry.issued))
                    && registry.issued == old(registry.issued) + 1)
              && (c == Unregister ==>
                    registry.calls == old(registry.calls) + [UnregisterPostTypeComponent(old(surveyPostComponentId))]
                    && surveyPostComponentId == "" && registry.issued == old(registry.issued))
              && (c == Keep ==>
                    registry.calls == old(registry.calls) && surveyPostComponentId == old(surveyPostComponentId)
                    && registry.issued == old(registry.issued))
    {
      var use := UseSurveyPost(state);
      if use && !overrideSurveyPost {
        overrideSurveyPost := true;
        surveyPostComponentId := registry.RegisterComponent(PostNpsSurvey);
      } else if !use && overrideSurveyPost {
        overrideSurveyPost := false;
        registry.UnregisterComponent(surveyPostComponentId);
        surveyPostComponentId := "";
      }
    }
  }
}
