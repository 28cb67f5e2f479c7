/** The theme catalogue and the first-match theme selector. */
module Themes {
  import opened Runtime
  import opened Strings

  /** One audio preset: its display name and the filter graph handed to the
      external audio processor (opaque here). */
  datatype Theme = Theme(name: string, filters: string)

  /** The catalogue keys in declaration order, which is the order in which
      a `for ... in` loop visits them. */
  const Order: seq<string> :=
    ["childhood", "love", "adventure", "party", "nostalgic", "peaceful", "dreamy", "energetic", "default"]

  const Default: string := "default"

  const Catalog: map<string, Theme> := map[
    "childhood" := Theme("Childhood Memory", "asetrate=44100*1.2,aresample=44100,highpass=f=300,aecho=0.8:0.88:60:0.4,chorus=0.5:0.9:50:0.4:0.25:2"),
    "love" := Theme("First Love", "aphaser=type=t:speed=0.5:decay=0.4,chorus=0.6:0.9:50:0.3:0.25:1.5,equalizer=f=2000:t=h:w=2000:g=3"),
    "adventure" := Theme("Adventure", "equalizer=f=100:t=h:w=200:g=5,equalizer=f=3000:t=h:w=2000:g=3,aecho=0.8:0.9:1000:0.3"),
    "party" := Theme("Celebration", "equalizer=f=80:t=h:w=100:g=8,equalizer=f=4000:t=h:w=2000:g=4,stereotools=mlev=1.5"),
    "nostalgic" := Theme("Nostalgic", "asetrate=44100*0.95,aresample=44100,lowpass=f=3000,aecho=0.8:0.88:40:0.5,aphaser=type=t:speed=0.3"),
    "peaceful" := Theme("Peaceful", "lowpass=f=2000,volume=0.7,aecho=0.8:0.88:120:0.3,atempo=0.9"),
    "dreamy" := Theme("Dreamy", "aphaser=type=t:speed=0.2:decay=0.6,aecho=0.9:0.95:200:0.4,flanger=speed=0.5:depth=3"),
    "energetic" := Theme("Energetic", "equalizer=f=100:t=h:w=200:g=10,equalizer=f=5000:t=h:w=3000:g=5,atempo=1.1,stereotools=mlev=1.8"),
    "default" := Theme("Magical Remix", "chorus=0.7:0.9:55:0.4:0.25:2.5,aecho=0.8:0.88:60:0.4")
  ]

  /** The declared order lists nine distinct keys, ending with the
      fallback key. */
  lemma OrderDistinct()
    ensures forall i, j :: 0 <= i < j < |Order| ==> Order[i] != Order[j]
    ensures |Order| == 9 && Order[8] == Default
  {
  }

  /** The declared order lists exactly the catalogue keys. */
  lemma OrderListsCatalog()
    ensures forall k :: k in Catalog <==> k in Order
  {
  }

  /** The index of the first key in `keys` that occurs in `text`, if any. */
  function FirstMatch(text: string, keys: seq<string>): (r: Option<nat>)
    ensures r.Some? ==> r.value < |keys| && Contains(text, keys[r.value])
    ensures r.Some? ==> forall j :: 0 <= j < r.value ==> !Contains(text, keys[j])
    ensures r.None? ==> forall j :: 0 <= j < |keys| ==> !Contains(text, keys[j])
  {
    if keys == [] then None
    else if Contains(text, keys[0]) then Some(0)
    else match FirstMatch(text, keys[1..])
      case None => None
      case Some(i) => Some(i + 1)
  }

  /** The theme key chosen for one experience text: the first catalogue key,
      in declared order, that is a substring of the lower-cased text, and the
      fallback key when none is. */
  function SelectTheme(text: string): string
  {
    match FirstMatch(Lower(text), Order)
    case Some(i) => Order[i]
    case None => Default
  }

  /** The selection loop as the handlers run it: start from the fallback,
      visit the keys in order, stop at the first one the text includes. */
  method PickTheme(text: string) returns (key: string)
    ensures key == SelectTheme(text)
  {
    key := Default;
    var i := 0;
    while i < |Order|
      invariant 0 <= i <= |Order|
      invariant key == Default
      invariant forall j :: 0 <= j < i ==> !Contains(Lower(text), Order[j])
    {
      if Contains(Lower(text), Order[i]) {
        key := Order[i];
        break;
      }
      i := i + 1;
    }
  }

  /** The selected key is one of the declared keys. */
  lemma SelectThemeInOrder(text: string)
    ensures SelectTheme(text) in Order
  {
  }

  /** The selected key always names a catalogue theme. */
  lemma SelectThemeInCatalog(text: string)
    ensures SelectTheme(text) in Catalog
  {
    SelectThemeInOrder(text);
    OrderListsCatalog();
  }

  /** A key other than the fallback is selected exactly when it is included
      in the lower-cased text and no earlier key is. */
  lemma SelectThemeIsFirstMatch(text: string, i: nat)
    requires i < |Order| - 1
    ensures SelectTheme(text) == Order[i] <==>
      Contains(Lower(text), Order[i]) && forall j :: 0 <= j < i ==> !Contains(Lower(text), Order[j])
  {
    OrderDistinct();
  }

  /** The fallback is selected exactly when none of the eight keyword keys
      is included in the lower-cased text. */
  lemma SelectThemeFallback(text: string)
    ensures SelectTheme(text) == Default <==>
      forall j :: 0 <= j < |Order| - 1 ==> !Contains(Lower(text), Order[j])
  {
    OrderDistinct();
    if forall j :: 0 <= j < |Order| - 1 ==> !Contains(Lower(text), Order[j]) {
      var r := FirstMatch(Lower(text), Order);
      assert r.Some? ==> r.value == |Order| - 1;
    }
  }

  /** "love" is declared before "party", so a text that includes both never
      selects "party"; it selects "love" unless it also includes
      "childhood", the only key declared before "love". */
  lemma LoveBeforeParty(text: string)
    requires Contains(Lower(text), "love") && Contains(Lower(text), "party")
    ensures SelectTheme(text) != "party"
    ensures SelectTheme(text) == "love" <==> !Contains(Lower(text), "childhood")
  {
    SelectThemeIsFirstMatch(text, 0);
    SelectThemeIsFirstMatch(text, 1);
    SelectThemeIsFirstMatch(text, 3);
  }

  /** Matching ignores ASCII case. */
  lemma SelectThemeIgnoresCase(text: string)
    ensures SelectTheme(Lower(text)) == SelectTheme(text)
  {
    LowerIdempotent(text);
  }

  /** Worked example: a text naming its keyword selects it. */
  lemma ChildhoodExample(t: string)
    requires t == "my childhood home"
    ensures SelectTheme(t) == "childhood"
  {
    assert Lower(t) == t by {
      LowerNoUpper(t);
    }
    assert Contains(t, "childhood") by {
      assert t[3..12] == "childhood";
      ContainsAt(t, "childhood", 3);
    }
    SelectThemeIsFirstMatch(t, 0);
  }

  /** Worked example: a text with no keyword falls back, even where a reader
      might expect a themed match ("first date" is not "love"). */
  lemma FallbackExample(t: string)
    requires t == "our first date"
    ensures SelectTheme(t) == Default
  {
    assert Lower(t) == t by {
      LowerNoUpper(t);
    }
    forall j | 0 <= j < |Order| - 1
      ensures !Contains(Lower(t), Order[j])
    {
      NotContainsByPair(t, Order[j]);
    }
    SelectThemeFallback(t);
  }

  /** Worked example: "love" beats "party" when a text names both. */
  lemma LovePartyExample(t: string)
    requires t == "love party"
    ensures SelectTheme(t) == "love"
  {
    assert Lower(t) == t by {
      LowerNoUpper(t);
    }
    assert Contains(t, "love") by {
      assert t[0..4] == "love";
      ContainsAt(t, "love", 0);
    }
    assert Contains(t, "party") by {
      assert t[5..10] == "party";
      ContainsAt(t, "party", 5);
    }
    assert !Contains(t, "childhood") by {
      NotContainsByPair(t, "childhood");
    }
    LoveBeforeParty(t);
  }
}
