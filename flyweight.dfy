/**
 * The flyweight example: map locations share one marker object per location
 * type, created on first request by a factory that caches it.
 */
module Flyweight {

  /** `toLocaleLowerCase` restricted to ASCII: `A`..`Z` become `a`..`z`, everything else stays. */
  function LowerChar(c: char): char {
    if 'A' <= c <= 'Z' then (c as int - 'A' as int + 'a' as int) as char else c
  }

  function AsciiLower(s: string): (r: string)
    ensures |r| == |s|
  {
    if s == [] then [] else [LowerChar(s[0])] + AsciiLower(s[1..])
  }

  /** Lower-casing maps each character on its own. */
  lemma {:induction false} AsciiLowerChars(s: string)
    ensures forall i | 0 <= i < |s| :: AsciiLower(s)[i] == LowerChar(s[i])
  {
    if s != [] {
      AsciiLowerChars(s[1..]);
    }
  }

  /** Lower-casing twice is lower-casing once, and a lower-cased string has no upper-case letter. */
  lemma AsciiLowerIdempotent(s: string)
    ensures AsciiLower(AsciiLower(s)) == AsciiLower(s)
    ensures forall i | 0 <= i < |s| :: !('A' <= AsciiLower(s)[i] <= 'Z')
  {
    AsciiLowerChars(s);
    AsciiLowerChars(AsciiLower(s));
  }

  /** The icon file of a type: `image_of_<type in lower case>.png`. */
  function IconImage(markerType: string): string {
    "image_of_" + AsciiLower(markerType) + ".png"
  }

  /** Icon names are the lower-cased type between a fixed prefix and suffix, so types differing only in case share one. */
  lemma IconImageShape(markerType: string, other: string)
    ensures |IconImage(markerType)| == |markerType| + 13
    ensures IconImage(markerType)[..9] == "image_of_"
    ensures IconImage(markerType)[|markerType| + 9..] == ".png"
    ensures IconImage(markerType)[9..|markerType| + 9] == AsciiLower(markerType)
    ensures AsciiLower(markerType) == AsciiLower(other) ==> IconImage(markerType) == IconImage(other)
    ensures IconImage(markerType) == IconImage(other) ==> AsciiLower(markerType) == AsciiLower(other)
  {
    var i := IconImage(markerType);
    if IconImage(markerType) == IconImage(other) {
      assert |other| == |markerType|;
      assert AsciiLower(markerType) == i[9..|markerType| + 9];
    }
  }

  /** `LocationMarker`: the shared, intrinsic part of a location. */
  class LocationMarker {
    const markerType: string
    const iconImage: string

    /** The marker carries the icon file of its own type. */
    predicate Made() {
      iconImage == IconImage(markerType)
    }

    constructor (markerType: string, iconImage: string)
      ensures this.markerType == markerType && this.iconImage == iconImage
    {
      this.markerType := markerType;
      this.iconImage := iconImage;
    }
  }

  /** `LocationFactory`: the cache of markers, keyed by type. */
  class LocationFactory {
    var icons: map<string, LocationMarker>

    /** Each cached marker was made for its own key, with that key's icon. */
    ghost predicate Valid()
      reads this
    {
      forall t | t in icons :: icons[t].markerType == t && icons[t].Made()
    }

    constructor ()
      ensures Valid() && icons == map[]
    {
      icons := map[];
    }

    /**
     * `getLocationIcon(type)`: the cached marker when there is one; otherwise a
     * new marker for the type, cached under it. No other entry changes.
     */
    method GetLocationIcon(markerType: string) returns (marker: LocationMarker)
      requires Valid()
      modifies this
      ensures Valid()
      ensures markerType in old(icons) ==> marker == old(icons)[markerType] && icons == old(icons)
      ensures markerType !in old(icons) ==> fresh(marker) && icons == old(icons)[markerType := marker]
      ensures markerType in icons && icons[markerType] == marker
      ensures marker.markerType == markerType && marker.iconImage == IconImage(markerType)
      ensures icons.Keys == old(icons).Keys + {markerType}
      ensures forall t | t in old(icons) :: t in icons && icons[t] == old(icons)[t]
    {
      if markerType !in icons {
        var iconImage := "image_of_" + AsciiLower(markerType) + ".png";
        var created := new LocationMarker(markerType, iconImage);
        icons := icons[markerType := created];
      }
      marker := icons[markerType];
    }
  }

  /** Markers of different types are different objects. */
  lemma DistinctTypesDistinctMarkers(icons: map<string, LocationMarker>, a: string, b: string)
    requires forall t | t in icons :: icons[t].markerType == t
    requires a in icons && b in icons && a != b
    ensures icons[a] != icons[b]
  {
  }

  /** `MapLocation`: the extrinsic coordinates plus a shared marker. */
  class MapLocation {
    const x: int
    const y: int
    const icon: LocationMarker

    constructor (x: int, y: int, icon: LocationMarker)
      ensures this.x == x && this.y == y && this.icon == icon
    {
      this.x := x;
      this.y := y;
      this.icon := icon;
    }
  }

  /** The icon of each of a list of location types, requested in order. */
  method GetLocationIcons(factory: LocationFactory, types: seq<string>) returns (markers: seq<LocationMarker>)
    requires factory.Valid()
    modifies factory
    ensures factory.Valid()
    ensures factory.icons.Keys == old(factory.icons).Keys + (set i | 0 <= i < |types| :: types[i])
    ensures forall t | t in old(factory.icons) :: factory.icons[t] == old(factory.icons)[t]
    ensures |markers| == |types|
    ensures forall i | 0 <= i < |types| :: markers[i] == factory.icons[types[i]]
  {
    markers := [];
    for n := 0 to |types|
      invariant factory.Valid()
      invariant factory.icons.Keys == old(factory.icons).Keys + (set i | 0 <= i < n :: types[i])
      invariant forall t | t in old(factory.icons) :: factory.icons[t] == old(factory.icons)[t]
      invariant |markers| == n
      invariant forall i | 0 <= i < n :: types[i] in factory.icons && markers[i] == factory.icons[types[i]]
    {
      ghost var before := factory.icons.Keys;
      var marker := factory.GetLocationIcon(types[n]);
      markers := markers + [marker];
      RequestedGrows(types, n, old(factory.icons).Keys, before);
    }
  }

  lemma RequestedGrows(types: seq<string>, n: nat, base: set<string>, before: set<string>)
    requires n < |types|
    requires before == base + (set i | 0 <= i < n :: types[i])
    ensures before + {types[n]} == base + (set i | 0 <= i < n + 1 :: types[i])
  {
    assert (set i | 0 <= i < n + 1 :: types[i]) == (set i | 0 <= i < n :: types[i]) + {types[n]};
  }

  const CityTypes: seq<string> :=
    ["house", "school", "house", "hospital", "house", "house", "park", "park", "restaurant",
     "house", "house", "house", "house", "house"]

  /**
   * The icons the example's fourteen locations ask for: five distinct types,
   * so five markers, each location holding the cached marker of its type.
   */
  method CityMarkers() returns (factory: LocationFactory, markers: seq<LocationMarker>)
    ensures factory.icons.Keys == {"house", "school", "hospital", "park", "restaurant"}
    ensures |factory.icons| == 5
    ensures |markers| == 14
  {
    factory := new LocationFactory();
    markers := GetLocationIcons(factory, CityTypes);
    CityTypesAreFive();
    assert |factory.icons| == |factory.icons.Keys|;
  }

  /** The fourteen requests name five distinct types. */
  lemma CityTypesAreFive()
    ensures (set i | 0 <= i < |CityTypes| :: CityTypes[i]) == {"house", "school", "hospital", "park", "restaurant"}
    ensures |{"house", "school", "hospital", "park", "restaurant"}| == 5
  {
    var requested := set i | 0 <= i < |CityTypes| :: CityTypes[i];
    var five := {"house", "school", "hospital", "park", "restaurant"};
    forall t | t in requested ensures t in five {
      var i :| 0 <= i < |CityTypes| && CityTypes[i] == t;
    }
    assert CityTypes[0] in requested && CityTypes[1] in requested && CityTypes[3] in requested;
    assert CityTypes[6] in requested && CityTypes[8] in requested;
  }
}
