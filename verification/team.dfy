/**
 * The lineup thumbnails of `CharsBox` (src/pages/team/index.js): the small
 * images of a saved team, or a single empty placeholder.
 */
module Team {
  import opened Wrappers

  /** The value of a member's `id`: `undefined`, `null`, or a string. */
  datatype Id = Undefined | Null | Text(text: string)

  /** A lineup member; only its `id` matters here. */
  datatype Character = Character(id: Id)

  /** A lineup slot, which may be `null`. */
  type Slot = Option<Character>

  /** `c?.id`: `undefined` for a `null` slot. */
  function IdOf(c: Slot): (id: Id)
    ensures c.None? ==> id == Undefined
    ensures c.Some? ==> id == c.value.id
  {
    match c
    case None => Undefined
    case Some(ch) => ch.id
  }

  /** `c?.id !== undefined`. */
  predicate HasId(c: Slot) {
    IdOf(c) != Undefined
  }

  /** `c?.id &&`: the id is a string other than the (falsy) empty string. */
  predicate ShowsImage(c: Slot) {
    IdOf(c).Text? && IdOf(c).text != ""
  }

  const ImagePrefix: string := "char_small_"

  /** The image asset name `char_small_${c.id}`. */
  function ImageName(id: string): (name: string)
    ensures ImagePrefix <= name && name[|ImagePrefix|..] == id
  {
    ImagePrefix + id
  }

  /** The images of the slots whose id is truthy, in lineup order. */
  function ImageNames(chars: seq<Slot>): (names: seq<string>)
    ensures |names| <= |chars|
    ensures forall k :: 0 <= k < |names| ==> ImagePrefix <= names[k]
    decreases |chars|
  {
    if chars == [] then []
    else
      var last := chars[|chars| - 1];
      ImageNames(chars[..|chars| - 1]) + (if ShowsImage(last) then [ImageName(IdOf(last).text)] else [])
  }

  /** The positions of the slots that show an image, strictly increasing, and all of them. */
  function ShownPositions(chars: seq<Slot>): (ps: seq<nat>)
    ensures forall k :: 0 <= k < |ps| ==> ps[k] < |chars| && ShowsImage(chars[ps[k]])
    ensures forall k, l :: 0 <= k < l < |ps| ==> ps[k] < ps[l]
    ensures forall i :: 0 <= i < |chars| && ShowsImage(chars[i]) ==> i in ps
    decreases |chars|
  {
    if chars == [] then []
    else
      var n := |chars| - 1;
      var rest := ShownPositions(chars[..n]);
      if ShowsImage(chars[n]) then rest + [n] else rest
  }

  /**
   * The rendered images are exactly the slots with a truthy id, in lineup
   * order: the k-th image is that of the k-th such slot.
   */
  lemma {:induction false} ImageNamesInLineupOrder(chars: seq<Slot>)
    ensures |ImageNames(chars)| == |ShownPositions(chars)|
    ensures forall k :: 0 <= k < |ImageNames(chars)| ==>
      ImageNames(chars)[k] == ImageName(IdOf(chars[ShownPositions(chars)[k]]).text)
    decreases |chars|
  {
    if chars != [] {
      var n := |chars| - 1;
      ImageNamesInLineupOrder(chars[..n]);
      assert forall i :: 0 <= i < n ==> chars[..n][i] == chars[i];
    }
  }

  /** What the box renders. */
  datatype Thumbnails = Placeholder | Images(names: seq<string>)

  /** `CharsBox`: the placeholder when no slot has an id, otherwise the images. */
  function CharsBox(chars: seq<Slot>): (r: Thumbnails)
    ensures r.Placeholder? <==> forall i :: 0 <= i < |chars| ==> !HasId(chars[i])
    ensures r.Images? ==> r.names == ImageNames(chars) && |r.names| <= |chars|
  {
    if forall i :: 0 <= i < |chars| ==> !HasId(chars[i]) then Placeholder
    else Images(ImageNames(chars))
  }

  /** An empty lineup, or one of null slots and id-less members, shows the placeholder. */
  lemma EmptyLineupsShowPlaceholder(chars: seq<Slot>)
    requires forall i :: 0 <= i < |chars| ==> chars[i].None? || chars[i].value.id == Undefined
    ensures CharsBox(chars) == Placeholder
  {
  }

  /** A lineup without a truthy id has no position that shows an image. */
  lemma {:induction false} NoTruthyIdNoPositions(chars: seq<Slot>)
    requires forall i :: 0 <= i < |chars| ==> !ShowsImage(chars[i])
    ensures ShownPositions(chars) == []
    decreases |chars|
  {
    if chars != [] {
      var n := |chars| - 1;
      assert forall i :: 0 <= i < n ==> chars[..n][i] == chars[i];
      NoTruthyIdNoPositions(chars[..n]);
    }
  }

  /**
   * A lineup in which some slot has a defined id but no id is truthy (every
   * id is `null`, `""` or missing) shows neither the placeholder nor any
   * image: the emptiness test and the image filter disagree on falsy ids.
   */
  lemma {:induction false} FalsyIdsShowNothing(chars: seq<Slot>)
    requires exists i :: 0 <= i < |chars| && HasId(chars[i])
    requires forall i :: 0 <= i < |chars| ==> !ShowsImage(chars[i])
    ensures CharsBox(chars) == Images([])
  {
    NoTruthyIdNoPositions(chars);
    ImageNamesInLineupOrder(chars);
  }

  /** The one-slot lineups `[{id: ""}]` and `[{id: null}]` are such lineups. */
  lemma FalsyIdExamples()
    ensures CharsBox([Some(Character(Text("")))]) == Images([])
    ensures CharsBox([Some(Character(Null))]) == Images([])
  {
    assert HasId([Some(Character(Text("")))][0]);
    FalsyIdsShowNothing([Some(Character(Text("")))]);
    assert HasId([Some(Character(Null))][0]);
    FalsyIdsShowNothing([Some(Character(Null))]);
  }
}
