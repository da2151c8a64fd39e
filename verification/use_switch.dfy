/**
 * The render mask of the `useSwitch` hook (src/hooks/useSwitch.js): one flag
 * per layout saying whether that layout may stay mounted. Local storage and
 * React state are replaced by explicit values passed in and returned.
 */
module UseSwitch {
  import opened Wrappers

  /** JavaScript truthiness of the stored layout: `undefined` and `""` are falsy. */
  predicate Truthy(local: Option<string>) {
    local.Some? && local.value != ""
  }

  /** `layouts[i] === localLayout`; past the end `layouts[i]` is `undefined`. */
  predicate Matches(layouts: seq<string>, local: string, i: int) {
    0 <= i < |layouts| && layouts[i] == local
  }

  /** `Array(layouts.length).fill(false)`: nothing may render before the first update. */
  function InitialMask(layouts: seq<string>): (mask: seq<bool>)
    ensures |mask| == |layouts|
    ensures forall i :: 0 <= i < |mask| ==> !mask[i]
  {
    seq(|layouts|, _ => false)
  }

  /**
   * The effect run when the stored layout changes. A falsy layout leaves the
   * mask alone; otherwise every slot of the current layout turns on, and the
   * other slots keep their flag unless `unmountOnLeave` clears them.
   */
  function UpdateMask(mask: seq<bool>, layouts: seq<string>, local: Option<string>, unmountOnLeave: bool): (r: seq<bool>)
    ensures |r| == |mask|
    ensures !Truthy(local) ==> r == mask
    ensures Truthy(local) ==> forall i :: 0 <= i < |r| && Matches(layouts, local.value, i) ==> r[i]
    ensures Truthy(local) && unmountOnLeave ==>
      forall i :: 0 <= i < |r| ==> (r[i] <==> Matches(layouts, local.value, i))
    ensures !unmountOnLeave ==> forall i :: 0 <= i < |r| && mask[i] ==> r[i]
    ensures forall i :: 0 <= i < |r| && r[i] && !mask[i] ==> Truthy(local) && Matches(layouts, local.value, i)
  {
    if !Truthy(local) then mask
    else seq(|mask|, i requires 0 <= i < |mask| => (mask[i] && !unmountOnLeave) || Matches(layouts, local.value, i))
  }

  /** Running the effect twice with the same layout is the same as running it once. */
  lemma UpdateIdempotent(mask: seq<bool>, layouts: seq<string>, local: Option<string>, unmountOnLeave: bool)
    ensures UpdateMask(UpdateMask(mask, layouts, local, unmountOnLeave), layouts, local, unmountOnLeave)
         == UpdateMask(mask, layouts, local, unmountOnLeave)
  {
  }

  /** The mask after the effect has run once per stored layout in `history`, oldest first. */
  function Replay(mask: seq<bool>, layouts: seq<string>, history: seq<Option<string>>, unmountOnLeave: bool): (r: seq<bool>)
    ensures |r| == |mask|
    decreases |history|
  {
    if history == [] then mask
    else UpdateMask(Replay(mask, layouts, history[..|history| - 1], unmountOnLeave),
                    layouts, history[|history| - 1], unmountOnLeave)
  }

  /** The most recent truthy layout of a history, if any. */
  function LastVisit(history: seq<Option<string>>): (r: Option<string>)
    ensures r.Some? ==> Truthy(r)
    ensures r.None? ==> forall j :: 0 <= j < |history| ==> !Truthy(history[j])
    ensures r.Some? ==>
      exists j :: 0 <= j < |history| && history[j] == r && forall k :: j < k < |history| ==> !Truthy(history[k])
    decreases |history|
  {
    if history == [] then None
    else
      var n := |history| - 1;
      if Truthy(history[n]) then history[n]
      else
        var r := LastVisit(history[..n]);
        assert forall k :: 0 <= k < n ==> history[..n][k] == history[k];
        r
  }

  /** Without `unmountOnLeave`, every layout ever visited may still render. */
  lemma {:induction false} VisitedLayoutsStayMounted(mask: seq<bool>, layouts: seq<string>, history: seq<Option<string>>, j: int, i: int)
    requires 0 <= j < |history| && Truthy(history[j])
    requires 0 <= i < |mask| && Matches(layouts, history[j].value, i)
    ensures Replay(mask, layouts, history, false)[i]
    decreases |history|
  {
    var n := |history| - 1;
    if j < n {
      VisitedLayoutsStayMounted(mask, layouts, history[..n], j, i);
    }
  }

  /**
   * With `unmountOnLeave`, only the most recently visited layout may render:
   * the mask depends on the history only through its last truthy entry.
   */
  lemma {:induction false} UnmountKeepsOnlyLastVisit(mask: seq<bool>, layouts: seq<string>, history: seq<Option<string>>)
    ensures Replay(mask, layouts, history, true) ==
      (if LastVisit(history).Some? then UpdateMask(mask, layouts, LastVisit(history), true) else mask)
    decreases |history|
  {
    if history != [] {
      var n := |history| - 1;
      UnmountKeepsOnlyLastVisit(mask, layouts, history[..n]);
      if Truthy(history[n]) {
        var r := Replay(mask, layouts, history, true);
        var u := UpdateMask(mask, layouts, history[n], true);
        assert forall i :: 0 <= i < |r| ==> r[i] == u[i];
      }
    }
  }
}
