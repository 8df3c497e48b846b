/** Drag reordering: rows that follow the pointer, and model lists kept as a primary and fallbacks. */
module Drag {
  import opened Text

  function Removed<T>(rows: seq<T>, i: nat): seq<T>
    requires i < |rows|
  {
    rows[..i] + rows[i + 1..]
  }

  function Inserted<T>(rows: seq<T>, i: nat, row: T): seq<T>
    requires i <= |rows|
  {
    rows[..i] + [row] + rows[i..]
  }

  /** The row at `from` taken out and put back at `to`. */
  function Moved<T>(rows: seq<T>, from: nat, to: nat): (moved: seq<T>)
    requires from < |rows| && to < |rows|
    ensures |moved| == |rows| && moved[to] == rows[from] && Removed(moved, to) == Removed(rows, from)
  {
    var rest := Removed(rows, from);
    var moved := Inserted(rest, to, rows[from]);
    assert moved[..to] == rest[..to] && moved[to + 1..] == rest[to..];
    moved
  }

  /** Moving on from where the row was dropped is moving there directly. */
  lemma MovedTwice<T>(rows: seq<T>, from: nat, via: nat, to: nat)
    requires from < |rows| && via < |rows| && to < |rows|
    ensures Moved(Moved(rows, from, via), via, to) == Moved(rows, from, to)
  {
  }

  lemma MovedNowhere<T>(rows: seq<T>, from: nat)
    requires from < |rows|
    ensures Moved(rows, from, from) == rows
  {
  }

  /** The list being edited and the row the pointer drags. */
  class DragList<T> {
    var rows: seq<T>
    var draggedIdx: Option<nat>

    constructor (rows: seq<T>)
      ensures this.rows == rows && draggedIdx == None
    {
      this.rows, draggedIdx := rows, None;
    }

    method OnDragStart(idx: nat)
      requires idx < |rows|
      modifies this`draggedIdx
      ensures draggedIdx == Some(idx)
    {
      draggedIdx := Some(idx);
    }

    /** Two splices of a copy, then the index follows the row. */
    method OnDragEnter(target: nat)
      requires target < |rows| && (draggedIdx.Some? ==> draggedIdx.value < |rows|)
      modifies this
      ensures draggedIdx == if old(draggedIdx).Some? then Some(target) else None
      ensures rows == if old(draggedIdx).Some? then Moved(old(rows), old(draggedIdx).value, target) else old(rows)
    {
      if draggedIdx == None || draggedIdx == Some(target) {
        if draggedIdx.Some? {
          MovedNowhere(rows, target);
        }
        return;
      }
      var from := draggedIdx.value;
      var copy := rows;
      var dragged := copy[from];
      copy := copy[..from] + copy[from + 1..];
      copy := copy[..target] + [dragged] + copy[target..];
      rows := copy;
      draggedIdx := Some(target);
    }

    /**
     * Path independence: however the pointer wanders, the list is the original with the dragged row
     * taken out and put back at the last target; the index points at that row all along.
     */
    method DragOver(start: nat, targets: seq<nat>)
      requires start < |rows| && forall k | 0 <= k < |targets| :: targets[k] < |rows|
      modifies this
      ensures rows == Moved(old(rows), start, if targets == [] then start else Last(targets))
      ensures draggedIdx == Some(if targets == [] then start else Last(targets))
      ensures rows[draggedIdx.value] == old(rows)[start] && Removed(rows, draggedIdx.value) == Removed(old(rows), start)
    {
      OnDragStart(start);
      MovedNowhere(rows, start);
      var at := start;
      for k := 0 to |targets|
        invariant at < |rows| == |old(rows)| && draggedIdx == Some(at) && rows == Moved(old(rows), start, at)
        invariant at == if k == 0 then start else targets[k - 1]
      {
        MovedTwice(old(rows), start, at, targets[k]);
        OnDragEnter(targets[k]);
        at := targets[k];
      }
    }
  }

  // ----- model lists

  /** The routing model and its fallbacks as a policy stores them. */
  datatype ModelConfig = ModelConfig(routingModelId: string, fallbackModelIds: seq<string>)

  function ModelIds(config: ModelConfig): seq<string> {
    if config.routingModelId != "" then [config.routingModelId] + config.fallbackModelIds else config.fallbackModelIds
  }

  function WithModelIds(ids: seq<string>): ModelConfig {
    if ids == [] then ModelConfig("", []) else ModelConfig(ids[0], ids[1..])
  }

  /** What is stored reads back exactly when the first id is not empty. */
  lemma ModelIdsReadBack(ids: seq<string>)
    ensures ModelIds(WithModelIds(ids)) == ids <==> ids == [] || ids[0] != ""
  {
    if ids != [] && ids[0] == "" {
      assert |ModelIds(WithModelIds(ids))| == |ids| - 1;
    }
  }

  /** One drag step on the stored form. */
  function MovedModel(config: ModelConfig, from: nat, to: nat): ModelConfig
    requires from < |ModelIds(config)| && to < |ModelIds(config)|
  {
    WithModelIds(Moved(ModelIds(config), from, to))
  }

  ghost predicate NonEmptyIds(ids: seq<string>) {
    forall i | 0 <= i < |ids| :: ids[i] != ""
  }

  /** The drag steps of one gesture, each reading and storing the list. */
  function DraggedModels(config: ModelConfig, from: nat, targets: seq<nat>): ModelConfig
    decreases |targets|
  {
    if targets == [] || from >= |ModelIds(config)| || targets[0] >= |ModelIds(config)| then config
    else if targets[0] == from then DraggedModels(config, from, targets[1..])
    else DraggedModels(MovedModel(config, from, targets[0]), targets[0], targets[1..])
  }

  /** Non-empty ids survive every read and store, so the whole gesture moves one id to the last target. */
  lemma {:induction false} DraggedModelsFollow(config: ModelConfig, from: nat, targets: seq<nat>)
    requires NonEmptyIds(ModelIds(config)) && from < |ModelIds(config)|
    requires forall k | 0 <= k < |targets| :: targets[k] < |ModelIds(config)|
    ensures ModelIds(DraggedModels(config, from, targets))
         == Moved(ModelIds(config), from, if targets == [] then from else Last(targets))
    decreases |targets|
  {
    var ids := ModelIds(config);
    MovedNowhere(ids, from);
    if targets != [] {
      var moved := Moved(ids, from, targets[0]);
      forall i | 0 <= i < |moved|
        ensures moved[i] != ""
      {
        MovedMembers(ids, from, targets[0], i);
      }
      ModelIdsReadBack(moved);
      var last := if targets[1..] == [] then targets[0] else Last(targets[1..]);
      assert last == Last(targets);
      if targets[0] == from {
        DraggedModelsFollow(config, from, targets[1..]);
      } else {
        DraggedModelsFollow(MovedModel(config, from, targets[0]), targets[0], targets[1..]);
        MovedTwice(ids, from, targets[0], last);
      }
    }
  }

  lemma MovedMembers<T>(rows: seq<T>, from: nat, to: nat, i: nat)
    requires from < |rows| && to < |rows| && i < |rows|
    ensures Moved(rows, from, to)[i] in rows
  {
  }
}
