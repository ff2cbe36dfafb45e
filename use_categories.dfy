/** `useCategories`: the category tree fetched from the admin API and the two
    lists the navigation bar is built from. */
module Categories {
  import opened Wrappers

  /** A main category and the names of its subcategories, in server order. */
  datatype Category = Category(name: string, subcategories: seq<string>)

  /** Index of the first category called `name` (`categories.find`). */
  function FirstNamed(cats: seq<Category>, name: string): (r: Option<nat>)
    ensures r.None? <==> forall i :: 0 <= i < |cats| ==> cats[i].name != name
    ensures r.Some? ==>
      && r.value < |cats| && cats[r.value].name == name
      && forall j :: 0 <= j < r.value ==> cats[j].name != name
  {
    if cats == [] then None
    else if cats[0].name == name then Some(0)
    else match FirstNamed(cats[1..], name)
      case None => None
      case Some(i) => Some(i + 1)
  }

  /** Index of the first category that lists `sub` among its subcategories
      (`categories.find(c => c.subcategories.some(s => s.name === sub))`). */
  function FirstContaining(cats: seq<Category>, sub: string): (r: Option<nat>)
    ensures r.None? <==> forall i :: 0 <= i < |cats| ==> sub !in cats[i].subcategories
    ensures r.Some? ==>
      && r.value < |cats| && sub in cats[r.value].subcategories
      && forall j :: 0 <= j < r.value ==> sub !in cats[j].subcategories
  {
    if cats == [] then None
    else if sub in cats[0].subcategories then Some(0)
    else match FirstContaining(cats[1..], sub)
      case None => None
      case Some(i) => Some(i + 1)
  }

  /** `['All', ...categories.map(cat => cat.name)]` */
  function MainCategories(cats: seq<Category>): (r: seq<string>)
    ensures |r| == |cats| + 1
    ensures r[0] == "All"
    ensures forall i :: 0 <= i < |cats| ==> r[i + 1] == cats[i].name
  {
    ["All"] + seq(|cats|, i requires 0 <= i < |cats| => cats[i].name)
  }

  /** The subcategory tabs for a main category: none for `'All'` or an unknown
      name, else `'All'` followed by the first such category's subcategories. */
  function SubCategories(cats: seq<Category>, name: string): (r: seq<string>)
    ensures name == "All" ==> r == []
    ensures (forall i :: 0 <= i < |cats| ==> cats[i].name != name) ==> r == []
    ensures forall i ::
      (0 <= i < |cats| && cats[i].name == name && name != "All" && forall j :: 0 <= j < i ==> cats[j].name != name)
      ==> r == ["All"] + cats[i].subcategories
  {
    if name == "All" then []
    else match FirstNamed(cats, name)
      case None => []
      case Some(i) => ["All"] + cats[i].subcategories
  }

  /** Every main-category tab other than `'All'` opens a subcategory list that
      starts with `'All'`; the `'All'` tab opens none. */
  lemma TabsHaveSubCategories(cats: seq<Category>, k: nat)
    requires k < |cats| + 1
    ensures var name := MainCategories(cats)[k];
      if name == "All" then SubCategories(cats, name) == []
      else |SubCategories(cats, name)| >= 1 && SubCategories(cats, name)[0] == "All"
  {
    var name := MainCategories(cats)[k];
    if name != "All" {
      assert k > 0 && cats[k - 1].name == name;
    }
  }
}
