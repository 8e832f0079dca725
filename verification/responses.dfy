/** The document the endpoint returns (`Response`) and the builder that makes it.

    The builder is generated with a default for every field: a `build()` call
    fills each field with the argument of the last setter called for it, and a
    field whose setter was never called keeps its default. Passing null to a
    setter is a call like any other, so it overrides the default with null. */
module Responses {
  import opened Wrappers
  import opened Models

  datatype Response = Response(
    starship: Option<Starship>,
    crew: Option<string>,
    isLeiaOnPlanet: Option<string>)

  const DefaultCrew := "0"
  const DefaultIsLeiaOnPlanet := "false"

  /** One setter call on `Response.builder()`; a null argument is `None`. */
  datatype Setter =
    | SetStarship(starship: Option<Starship>)
    | SetCrew(crew: Option<string>)
    | SetIsLeiaOnPlanet(isLeiaOnPlanet: Option<string>)

  /** `calls[i]` is the last call that sets the starship. */
  ghost predicate LastStarshipSetter(calls: seq<Setter>, i: int) {
    0 <= i < |calls| && calls[i].SetStarship?
    && forall j :: i < j < |calls| ==> !calls[j].SetStarship?
  }

  ghost predicate LastCrewSetter(calls: seq<Setter>, i: int) {
    0 <= i < |calls| && calls[i].SetCrew?
    && forall j :: i < j < |calls| ==> !calls[j].SetCrew?
  }

  ghost predicate LastIsLeiaOnPlanetSetter(calls: seq<Setter>, i: int) {
    0 <= i < |calls| && calls[i].SetIsLeiaOnPlanet?
    && forall j :: i < j < |calls| ==> !calls[j].SetIsLeiaOnPlanet?
  }

  /** The starship of `r` is the argument of the last starship setter in `calls`,
      or the default (null) when there is none. */
  ghost predicate StarshipAsBuilt(calls: seq<Setter>, r: Response) {
    && ((forall i :: 0 <= i < |calls| ==> !calls[i].SetStarship?) ==> r.starship == None)
    && (forall i :: LastStarshipSetter(calls, i) ==> r.starship == calls[i].starship)
  }

  ghost predicate CrewAsBuilt(calls: seq<Setter>, r: Response) {
    && ((forall i :: 0 <= i < |calls| ==> !calls[i].SetCrew?) ==> r.crew == Some(DefaultCrew))
    && (forall i :: LastCrewSetter(calls, i) ==> r.crew == calls[i].crew)
  }

  ghost predicate IsLeiaOnPlanetAsBuilt(calls: seq<Setter>, r: Response) {
    && ((forall i :: 0 <= i < |calls| ==> !calls[i].SetIsLeiaOnPlanet?) ==>
          r.isLeiaOnPlanet == Some(DefaultIsLeiaOnPlanet))
    && (forall i :: LastIsLeiaOnPlanetSetter(calls, i) ==> r.isLeiaOnPlanet == calls[i].isLeiaOnPlanet)
  }

  function Apply(r: Response, call: Setter): Response {
    match call
    case SetStarship(s) => r.(starship := s)
    case SetCrew(c) => r.(crew := c)
    case SetIsLeiaOnPlanet(p) => r.(isLeiaOnPlanet := p)
  }

  /** `Response.builder()` followed by `calls`, in order, then `build()`. */
  function Build(calls: seq<Setter>): (r: Response)
    ensures StarshipAsBuilt(calls, r)
    ensures CrewAsBuilt(calls, r)
    ensures IsLeiaOnPlanetAsBuilt(calls, r)
    decreases |calls|
  {
    if calls == [] then
      Response(None, Some(DefaultCrew), Some(DefaultIsLeiaOnPlanet))
    else
      var prefix := calls[..|calls| - 1];
      var last := calls[|calls| - 1];
      var before := Build(prefix);
      StarshipStep(prefix, last, before);
      CrewStep(prefix, last, before);
      IsLeiaOnPlanetStep(prefix, last, before);
      assert prefix + [last] == calls;
      Apply(before, last)
  }

  lemma StarshipStep(prefix: seq<Setter>, last: Setter, before: Response)
    requires StarshipAsBuilt(prefix, before)
    ensures StarshipAsBuilt(prefix + [last], Apply(before, last))
  {
    var calls := prefix + [last];
    var after := Apply(before, last);
    forall i | LastStarshipSetter(calls, i)
      ensures after.starship == calls[i].starship
    {
      if i < |prefix| {
        assert !last.SetStarship? by { assert calls[|prefix|] == last; }
        assert forall j :: 0 <= j < |prefix| ==> calls[j] == prefix[j];
        assert LastStarshipSetter(prefix, i);
      }
    }
    if forall i :: 0 <= i < |calls| ==> !calls[i].SetStarship? {
      assert calls[|prefix|] == last;
      assert forall i :: 0 <= i < |prefix| ==> calls[i] == prefix[i];
    }
  }

  lemma CrewStep(prefix: seq<Setter>, last: Setter, before: Response)
    requires CrewAsBuilt(prefix, before)
    ensures CrewAsBuilt(prefix + [last], Apply(before, last))
  {
    var calls := prefix + [last];
    var after := Apply(before, last);
    forall i | LastCrewSetter(calls, i)
      ensures after.crew == calls[i].crew
    {
      if i < |prefix| {
        assert !last.SetCrew? by { assert calls[|prefix|] == last; }
        assert forall j :: 0 <= j < |prefix| ==> calls[j] == prefix[j];
        assert LastCrewSetter(prefix, i);
      }
    }
    if forall i :: 0 <= i < |calls| ==> !calls[i].SetCrew? {
      assert calls[|prefix|] == last;
      assert forall i :: 0 <= i < |prefix| ==> calls[i] == prefix[i];
    }
  }

  lemma IsLeiaOnPlanetStep(prefix: seq<Setter>, last: Setter, before: Response)
    requires IsLeiaOnPlanetAsBuilt(prefix, before)
    ensures IsLeiaOnPlanetAsBuilt(prefix + [last], Apply(before, last))
  {
    var calls := prefix + [last];
    var after := Apply(before, last);
    forall i | LastIsLeiaOnPlanetSetter(calls, i)
      ensures after.isLeiaOnPlanet == calls[i].isLeiaOnPlanet
    {
      if i < |prefix| {
        assert !last.SetIsLeiaOnPlanet? by { assert calls[|prefix|] == last; }
        assert forall j :: 0 <= j < |prefix| ==> calls[j] == prefix[j];
        assert LastIsLeiaOnPlanetSetter(prefix, i);
      }
    }
    if forall i :: 0 <= i < |calls| ==> !calls[i].SetIsLeiaOnPlanet? {
      assert calls[|prefix|] == last;
      assert forall i :: 0 <= i < |prefix| ==> calls[i] == prefix[i];
    }
  }

  /** `Response.builder().build()`: every field at its default. */
  const Defaults := Build([])

  lemma DefaultsAreNullStarshipZeroCrewNotPresent()
    ensures Defaults.starship == None
    ensures Defaults.crew == Some("0")
    ensures Defaults.isLeiaOnPlanet == Some("false")
  {
  }

  /** Setting some fields explicitly overrides exactly those fields, one at a time;
      the others keep their defaults. */
  lemma SingleSetterOverridesOnlyItsField(call: Setter)
    ensures call.SetStarship? ==> Build([call]) == Defaults.(starship := call.starship)
    ensures call.SetCrew? ==> Build([call]) == Defaults.(crew := call.crew)
    ensures call.SetIsLeiaOnPlanet? ==> Build([call]) == Defaults.(isLeiaOnPlanet := call.isLeiaOnPlanet)
  {
  }

  /** The three-setter chain of the success path yields exactly its three arguments. */
  lemma FullChainSetsEveryField(s: Option<Starship>, c: Option<string>, p: Option<string>)
    ensures Build([SetStarship(s), SetCrew(c), SetIsLeiaOnPlanet(p)]) == Response(s, c, p)
  {
    var calls := [SetStarship(s), SetCrew(c), SetIsLeiaOnPlanet(p)];
    assert LastStarshipSetter(calls, 0);
    assert LastCrewSetter(calls, 1);
    assert LastIsLeiaOnPlanetSetter(calls, 2);
  }
}
