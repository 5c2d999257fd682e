/**
 * The catalogue of assistant voices (src/server/config/assistant-profile.ts)
 * and the three ways of picking one. `Math.random()` is a parameter `draw`
 * in [0, 1).
 */
module Profiles {

  import opened Wrappers

  datatype Gender = Male | Female

  datatype Profile = Profile(name: string, gender: Gender, description: string, displayName: string)

  const Catalogue: seq<Profile> := [
    Profile("marina", Female, "Марина - женский голос", "Марина"),
    Profile("jane", Female, "Джейн - женский голос", "Джейн"),
    Profile("oksana", Female, "Оксана - женский голос", "Оксана"),
    Profile("omazh", Female, "Омаж - женский голос", "Омаж"),
    Profile("alena", Female, "Алена - женский голос", "Алена"),
    Profile("filipp", Male, "Филипп - мужской голос", "Филипп"),
    Profile("ermil", Male, "Ермил - мужской голос", "Ермил"),
    Profile("madirus", Male, "Мадирус - мужской голос", "Мадирус"),
    Profile("anton", Male, "Антон - мужской голос", "Антон")
  ]

  /** A value `Math.random()` can return. */
  predicate IsDraw(draw: real) {
    0.0 <= draw < 1.0
  }

  /** `Math.floor(draw * n)`: an index into a list of `n` entries. */
  function RandomIndex(draw: real, n: nat): (i: nat)
    requires IsDraw(draw) && n > 0
    ensures i < n
    ensures i as real <= draw * n as real < i as real + 1.0
  {
    var x := draw * n as real;
    assert 0.0 <= x;
    assert x < n as real by {
      assert n as real - x == (1.0 - draw) * n as real;
      assert (1.0 - draw) * n as real > 0.0;
    }
    x.Floor
  }

  /** Every index of a list is drawn for some value of `Math.random()`. */
  lemma EveryIndexDrawn(n: nat, i: nat)
    requires i < n
    ensures IsDraw(i as real / n as real) && RandomIndex(i as real / n as real, n) == i
  {
    var d := i as real / n as real;
    assert d * n as real == i as real;
  }

  /** `getRandomProfile()`: some profile of the catalogue. */
  function RandomProfile(draw: real): (p: Profile)
    requires IsDraw(draw)
    ensures p in Catalogue
  {
    Catalogue[RandomIndex(draw, |Catalogue|)]
  }

  /** The profiles of one gender, in catalogue order. */
  function OfGender(ps: seq<Profile>, g: Gender): (r: seq<Profile>)
    ensures forall p :: p in r <==> p in ps && p.gender == g
    ensures |r| <= |ps|
  {
    if |ps| == 0 then []
    else (if ps[0].gender == g then [ps[0]] else []) + OfGender(ps[1..], g)
  }

  /** Both genders have voices in the catalogue. */
  lemma BothGendersPresent(g: Gender)
    ensures |OfGender(Catalogue, g)| > 0
  {
    var p := if g == Female then Catalogue[0] else Catalogue[5];
    assert p.gender == g && p in Catalogue;
    assert p in OfGender(Catalogue, g);
  }

  /** `getRandomProfileByGender(g)`: some profile of that gender. */
  function RandomProfileByGender(g: Gender, draw: real): (p: Profile)
    requires IsDraw(draw)
    ensures p in Catalogue && p.gender == g
  {
    var ps := OfGender(Catalogue, g);
    BothGendersPresent(g);
    ps[RandomIndex(draw, |ps|)]
  }

  /** `getProfileByName(name)`: the first profile with that name, or `undefined`. */
  function ProfileByName(ps: seq<Profile>, name: string): (r: Option<Profile>)
    ensures r.None? <==> forall p :: p in ps ==> p.name != name
    ensures r.Some? ==> r.value in ps && r.value.name == name
  {
    if |ps| == 0 then None
    else if ps[0].name == name then Some(ps[0])
    else ProfileByName(ps[1..], name)
  }

  /** No two profiles of the catalogue share a voice name. */
  lemma CatalogueNamesDistinct()
    ensures forall i, j :: 0 <= i < j < |Catalogue| ==> Catalogue[i].name != Catalogue[j].name
  {
  }

  /** Looking a profile up by its own name gives the profile back. */
  lemma {:induction false} ProfileByNameFindsOwn(ps: seq<Profile>, k: nat)
    requires k < |ps|
    requires forall i, j :: 0 <= i < j < |ps| ==> ps[i].name != ps[j].name
    ensures ProfileByName(ps, ps[k].name) == Some(ps[k])
    decreases k
  {
    if k > 0 {
      assert ps[0].name != ps[k].name;
      assert ps[1..][k - 1] == ps[k];
      ProfileByNameFindsOwn(ps[1..], k - 1);
    }
  }
}
