/** `PatientCard` (src/components/PatientCard.tsx): which fields the details
    panel lists, how long values are shortened, and the two expand flags. */
module Card {
  import opened Text
  import opened Records

  /** Values longer than this are shortened while collapsed. */
  const DescriptionLimit: nat := 200

  /** `getShortDescription`: short values unchanged; long ones whole when
      expanded, otherwise the first 200 characters and `"..."`. */
  function ShortDescription(description: string, isDescriptionExpanded: bool): (r: string)
    ensures |description| <= DescriptionLimit ==> r == description
    ensures |description| > DescriptionLimit && isDescriptionExpanded ==> r == description
    ensures |description| > DescriptionLimit && !isDescriptionExpanded ==>
      |r| == DescriptionLimit + 3 && r[..DescriptionLimit] == description[..DescriptionLimit] && r[DescriptionLimit..] == "..."
    ensures |r| <= DescriptionLimit + 3 || r == description
  {
    if |description| <= DescriptionLimit then description
    else if isDescriptionExpanded then description
    else description[..DescriptionLimit] + "..."
  }

  /** The keys the details panel never lists. */
  predicate Hidden(key: string) {
    key == "avatar" || key == "createdAt" || key == "website" || key == "name"
  }

  /** The keys out of `keys` that get a row: not hidden and not `''`. */
  function RowKeys(keys: seq<string>, values: map<string, string>): (r: seq<string>)
    requires forall k :: k in keys ==> k in values
    ensures forall k :: k in r <==> k in keys && !Hidden(k) && values[k] != ""
    ensures |r| <= |keys|
  {
    if keys == [] then []
    else
      var rest := RowKeys(keys[1..], values);
      if !Hidden(keys[0]) && values[keys[0]] != "" then [keys[0]] + rest else rest
  }

  /** The rows keep the order of `Object.keys(patient)`. */
  lemma {:induction false} RowKeysAppend(a: seq<string>, b: seq<string>, values: map<string, string>)
    requires forall k :: k in a + b ==> k in values
    ensures RowKeys(a + b, values) == RowKeys(a, values) + RowKeys(b, values)
  {
    if a == [] {
      assert a + b == b;
    } else {
      assert (a + b)[0] == a[0];
      assert (a + b)[1..] == a[1..] + b;
      RowKeysAppend(a[1..], b, values);
    }
  }

  /** The keys of a patient that get a row, in key order. */
  function DisplayKeys(p: Record): seq<string> {
    RowKeys(p.keys, p.values)
  }

  /** One row of the details panel: label, shown text, and whether a
      "Read more" / "Read less" button follows. */
  datatype Row = Row(heading: string, text: string, hasReadMore: bool)

  function RowFor(p: Record, key: string, isDescriptionExpanded: bool): Row
    requires key in p.values
  {
    Row(Capitalise(key), ShortDescription(p.values[key], isDescriptionExpanded), |p.values[key]| > DescriptionLimit)
  }

  /** The details panel of a card. */
  function Rows(p: Record, isDescriptionExpanded: bool): (rows: seq<Row>)
  {
    var keys := DisplayKeys(p);
    seq(|keys|, i requires 0 <= i < |keys| => RowFor(p, keys[i], isDescriptionExpanded))
  }

  /** Each row belongs to a listed key, is headed by the capitalised key,
      carries a button exactly when its value is longer than 200 characters,
      and one flag decides for all long rows at once whether they show in
      full or shortened. */
  lemma RowsSpec(p: Record, isDescriptionExpanded: bool)
    ensures |Rows(p, isDescriptionExpanded)| == |DisplayKeys(p)|
    ensures forall i :: 0 <= i < |DisplayKeys(p)| ==>
      var key := DisplayKeys(p)[i];
      var row := Rows(p, isDescriptionExpanded)[i];
      && key in p.values && !Hidden(key) && p.values[key] != ""
      && row.heading == Capitalise(key)
      && (row.hasReadMore <==> |p.values[key]| > DescriptionLimit)
      && (!row.hasReadMore || isDescriptionExpanded ==> row.text == p.values[key])
      && (row.hasReadMore && !isDescriptionExpanded ==> row.text == p.values[key][..DescriptionLimit] + "...")
  {
    var keys := DisplayKeys(p);
    forall i | 0 <= i < |keys| ensures keys[i] in p.values && !Hidden(keys[i]) && p.values[keys[i]] != "" {
      assert keys[i] in keys;
    }
  }

  class PatientCard {
    var isExpanded: bool
    var isDescriptionExpanded: bool

    /** Once the effect has run, a collapsed card never has its long values open. */
    ghost predicate Valid()
      reads this
    {
      isExpanded || !isDescriptionExpanded
    }

    constructor ()
      ensures Valid() && !isExpanded && !isDescriptionExpanded
    {
      isExpanded := false;
      isDescriptionExpanded := false;
    }

    /** The `useEffect` on `[isExpanded, isDescriptionExpanded]`: collapsing
        resets the long-value flag. */
    method ResetEffect()
      modifies this`isDescriptionExpanded
      ensures Valid()
      ensures isDescriptionExpanded == (old(isDescriptionExpanded) && isExpanded)
    {
      if !isExpanded {
        isDescriptionExpanded := false;
      }
    }

    /** The "Additional Information" / "Hide Information" button, followed by the effect. */
    method ToggleExpanded()
      requires Valid()
      modifies this
      ensures Valid()
      ensures isExpanded == !old(isExpanded)
      ensures isDescriptionExpanded == (old(isDescriptionExpanded) && isExpanded)
    {
      isExpanded := !isExpanded;
      ResetEffect();
    }

    /** `toggleDescription`, followed by the effect: flips the flag on an
        expanded card and leaves a collapsed card's flag off. */
    method ToggleDescription()
      requires Valid()
      modifies this
      ensures Valid()
      ensures isExpanded == old(isExpanded)
      ensures isDescriptionExpanded == (isExpanded && !old(isDescriptionExpanded))
    {
      isDescriptionExpanded := !isDescriptionExpanded;
      ResetEffect();
    }
  }
}
