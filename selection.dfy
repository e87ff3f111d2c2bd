/** Click commit (mouse_button_callback): the hover label is split at the
    first " - " and looked up in the catalog; a successful lookup pins the
    entry's name and description, a failed one pins nothing. */
module Selection {
  import opened Catalog
  import opened Picking

  /** The pinned entry: selectedObjectName and selectedObjectDescription. */
  datatype Pin = Pin(name: string, description: string)

  predicate OccursAt(s: string, pat: string, k: nat) {
    k + |pat| <= |s| && s[k..k + |pat|] == pat
  }

  /** std::string::find from position `from`: the first occurrence of `pat`. */
  function FindFrom(s: string, pat: string, from: nat): (r: Option<nat>)
    requires from <= |s|
    ensures r.Some? ==> from <= r.value && OccursAt(s, pat, r.value)
    ensures r.Some? ==> forall k :: from <= k < r.value ==> !OccursAt(s, pat, k)
    ensures r.None? ==> forall k :: from <= k ==> !OccursAt(s, pat, k)
    decreases |s| - from
  {
    if OccursAt(s, pat, from) then Some(from)
    else if from == |s| then None
    else FindFrom(s, pat, from + 1)
  }

  function Find(s: string, pat: string): Option<nat> {
    FindFrom(s, pat, 0)
  }

  /** The first body called `name`, from index `from` on. */
  function FirstBodyNamed(cat: seq<SolarObject>, name: string, from: nat): (r: Option<nat>)
    requires from <= |cat|
    ensures r.Some? ==> from <= r.value < |cat| && cat[r.value].name == name
    ensures r.Some? ==> forall i :: from <= i < r.value ==> cat[i].name != name
    ensures r.None? ==> forall i :: from <= i < |cat| ==> cat[i].name != name
    decreases |cat| - from
  {
    if from == |cat| then None
    else if cat[from].name == name then Some(from)
    else FirstBodyNamed(cat, name, from + 1)
  }

  /** The first moon called `name`, from index `from` on. */
  function FirstMoonNamed(moons: seq<Moon>, name: string, from: nat): (r: Option<nat>)
    requires from <= |moons|
    ensures r.Some? ==> from <= r.value < |moons| && moons[r.value].name == name
    ensures r.Some? ==> forall j :: from <= j < r.value ==> moons[j].name != name
    ensures r.None? ==> forall j :: from <= j < |moons| ==> moons[j].name != name
    decreases |moons| - from
  {
    if from == |moons| then None
    else if moons[from].name == name then Some(from)
    else FirstMoonNamed(moons, name, from + 1)
  }

  /** What a left click pins for hover text `info`, or None when the click
      leaves the pin alone: empty text, or a name the catalog does not have.
      With a separator, only the first body of that name is searched for the
      moon. */
  function CommitPin(cat: seq<SolarObject>, info: string): Option<Pin> {
    if info == [] then None
    else match Find(info, SEPARATOR)
      case Some(k) =>
        (match FirstBodyNamed(cat, info[..k], 0)
         case None => None
         case Some(i) =>
           match FirstMoonNamed(cat[i].moons, info[k + |SEPARATOR|..], 0)
           case None => None
           case Some(j) => Some(Pin(cat[i].moons[j].name, cat[i].moons[j].info)))
      case None =>
        match FirstBodyNamed(cat, info, 0)
        case None => None
        case Some(i) => Some(Pin(cat[i].name, cat[i].info))
  }

  /** The name and description pinned for a target. */
  function PinOf(cat: seq<SolarObject>, x: Target): Pin
    requires IsTarget(cat, x)
  {
    match x
    case BodyTarget(i) => Pin(cat[i].name, cat[i].info)
    case MoonTarget(i, j) => Pin(cat[i].moons[j].name, cat[i].moons[j].info)
  }

  /** Whatever a click pins is the name and description of a catalog entry. */
  lemma CommitPinIsCatalogEntry(cat: seq<SolarObject>, info: string)
    requires CommitPin(cat, info).Some?
    ensures exists x :: IsTarget(cat, x) && CommitPin(cat, info).value == PinOf(cat, x)
  {
    var k := Find(info, SEPARATOR);
    if k.Some? {
      var i := FirstBodyNamed(cat, info[..k.value], 0).value;
      var j := FirstMoonNamed(cat[i].moons, info[k.value + |SEPARATOR|..], 0).value;
      assert IsTarget(cat, MoonTarget(i, j));
    } else {
      var i := FirstBodyNamed(cat, info, 0).value;
      assert IsTarget(cat, BodyTarget(i));
    }
  }

  /** A string without '-' contains no separator. */
  lemma NoSeparatorInPlainName(s: string)
    requires PlainName(s)
    ensures Find(s, SEPARATOR).None?
  {
    forall k: nat ensures !OccursAt(s, SEPARATOR, k) {
      DashOfSeparator(s, k);
    }
  }

  /** An occurrence of the separator at `k` puts a '-' at `k + 1`. */
  lemma DashOfSeparator(s: string, k: nat)
    ensures OccursAt(s, SEPARATOR, k) ==> k + 1 < |s| && s[k + 1] == '-'
  {
    if OccursAt(s, SEPARATOR, k) {
      assert s[k..k + 3][1] == s[k + 1];
    }
  }

  /** In "Body - Moon" with dash-free names, the first separator is the one
      the label was built with. */
  lemma SeparatorOfMoonLabel(a: string, b: string)
    requires PlainName(a) && PlainName(b)
    ensures Find(a + SEPARATOR + b, SEPARATOR) == Some(|a|)
  {
    var s := a + SEPARATOR + b;
    assert OccursAt(s, SEPARATOR, |a|) by {
      assert s[|a|..|a| + 3] == SEPARATOR;
    }
    forall k: nat | k < |a| ensures !OccursAt(s, SEPARATOR, k) {
      DashOfSeparator(s, k);
      if k + 1 < |a| {
        assert s[k + 1] == a[k + 1];
      } else {
        assert s[k + 1] == ' ';
      }
    }
  }

  /** Hover then click: committing the hover label of a target pins exactly
      that target, provided the catalog's names are usable as keys. */
  lemma CommitLabelPinsTarget(cat: seq<SolarObject>, x: Target)
    requires WellFormed(cat) && IsTarget(cat, x)
    ensures CommitPin(cat, Label(cat, x)) == Some(PinOf(cat, x))
  {
    var i := x.body;
    var info := Label(cat, x);
    match x
    case BodyTarget(_) =>
      NoSeparatorInPlainName(cat[i].name);
      assert FirstBodyNamed(cat, info, 0) == Some(i);
    case MoonTarget(_, j) =>
      var a, b := cat[i].name, cat[i].moons[j].name;
      assert PlainName(b);
      SeparatorOfMoonLabel(a, b);
      assert info[..|a|] == a;
      assert info[|a| + |SEPARATOR|..] == b;
      assert FirstBodyNamed(cat, a, 0) == Some(i);
      assert FirstMoonNamed(cat[i].moons, b, 0) == Some(j);
  }

  /** A click pins something only when the hover text is the label of a
      catalog entry; with usable names, it pins something exactly then. */
  lemma CommitPinSomeIffLabel(cat: seq<SolarObject>, info: string)
    ensures CommitPin(cat, info).Some? ==> exists x :: IsTarget(cat, x) && Label(cat, x) == info
    ensures WellFormed(cat) && (exists x :: IsTarget(cat, x) && Label(cat, x) == info) ==> CommitPin(cat, info).Some?
  {
    if CommitPin(cat, info).Some? {
      var k := Find(info, SEPARATOR);
      if k.Some? {
        var n := k.value;
        var i := FirstBodyNamed(cat, info[..n], 0).value;
        var j := FirstMoonNamed(cat[i].moons, info[n + |SEPARATOR|..], 0).value;
        assert info == info[..n] + SEPARATOR + info[n + |SEPARATOR|..] by {
          assert info[n..n + |SEPARATOR|] == SEPARATOR;
        }
        assert IsTarget(cat, MoonTarget(i, j)) && Label(cat, MoonTarget(i, j)) == info;
      } else {
        var i := FirstBodyNamed(cat, info, 0).value;
        assert IsTarget(cat, BodyTarget(i)) && Label(cat, BodyTarget(i)) == info;
      }
    }
    if WellFormed(cat) && exists x :: IsTarget(cat, x) && Label(cat, x) == info {
      var x :| IsTarget(cat, x) && Label(cat, x) == info;
      CommitLabelPinsTarget(cat, x);
    }
  }
}
