/**
 * The autoresolve binder that `link()` runs after the underlying link: every
 * uniform block named in the autoresolve list is looked up in the linked
 * program and in the uniform buffer manager, and its buffer is bound.
 *
 * The GL calls are recorded as `GlAction`s. The linked program's blocks are
 * a map from block name to block index; a name missing from it is what
 * `glGetUniformBlockIndex` answers with the invalid index for. The manager
 * is a read-only map from name to buffer object.
 */
module Autoresolve {
  import opened Wrappers

  /** `OpenGLUniformBufferObject::InvalidLocation`, GL's invalid block index. */
  const InvalidLocation: nat := 0xFFFF_FFFF

  /** What the binder reads from an `OpenGLUniformBufferObject`. */
  datatype Ubo = Ubo(locationId: nat, bufferId: nat)

  /** The GL calls the binder issues, in the order it issues them. */
  datatype GlAction =
    | Bind(program: nat)                                            // bind(): make the program current
    | BindBufferBase(locationId: nat, bufferId: nat)                // glBindBufferBase(GL_UNIFORM_BUFFER, ...)
    | UniformBlockBinding(program: nat, blockIndex: nat, locationId: nat)  // glUniformBlockBinding
    | Release                                                       // release()

  /** The two `qFatal` conditions of the binder, each naming the offending block. */
  datatype AutoresolveError =
    | BlockMissing(name: string)   // "Failed to find the UBO ... for autoresolve."
    | EntryMissing(name: string)   // "Manager has no knowledge of the UBO ..."

  /** What `link()` ends in: a returned link result, or a fatal stop. */
  datatype LinkOutcome = Linked(ok: bool) | Fatal(error: AutoresolveError)

  datatype Resolution = Resolution(actions: seq<GlAction>, failure: Option<AutoresolveError>)

  /** `uniformBlockLocation(name)`: the block index the linked program reports. */
  function UniformBlockLocation(blocks: map<string, nat>, name: string): (loc: nat)
    ensures name in blocks ==> loc == blocks[name]
    ensures loc != InvalidLocation ==> name in blocks && blocks[name] == loc
  {
    if name in blocks then blocks[name] else InvalidLocation
  }

  /** `uniformBlockBinding(index, ubo)`: the two GL calls that bind `ubo` to block `index`. */
  function BindUbo(program: nat, index: nat, ubo: Ubo): (calls: seq<GlAction>)
    ensures |calls| == 2 && calls[0].BindBufferBase? && calls[1].UniformBlockBinding?
    // the buffer goes to the binding point that the block is then attached to
    ensures calls[0].bufferId == ubo.bufferId && calls[0].locationId == ubo.locationId == calls[1].locationId
    ensures calls[1].program == program && calls[1].blockIndex == index
  {
    [BindBufferBase(ubo.locationId, ubo.bufferId), UniformBlockBinding(program, index, ubo.locationId)]
  }

  /** `uniformBlockBinding(name, ubo)`: look the block up by name, then bind, without checking the index. */
  function BindUboByName(program: nat, blocks: map<string, nat>, name: string, ubo: Ubo): (calls: seq<GlAction>)
    ensures |calls| == 2 && calls[0] == BindBufferBase(ubo.locationId, ubo.bufferId)
    // the index is not checked: an unknown block's invalid index reaches glUniformBlockBinding
    ensures calls[1] == UniformBlockBinding(program, if name in blocks then blocks[name] else InvalidLocation, ubo.locationId)
  {
    BindUbo(program, UniformBlockLocation(blocks, name), ubo)
  }

  /** A name the binder gets past: a valid block index and a manager entry. */
  predicate Resolvable(blocks: map<string, nat>, manager: map<string, Ubo>, name: string) {
    UniformBlockLocation(blocks, name) != InvalidLocation && name in manager
  }

  /** The error for a name that is not resolvable; the block is checked before the manager. */
  function ErrorFor(blocks: map<string, nat>, name: string): AutoresolveError {
    if UniformBlockLocation(blocks, name) == InvalidLocation then BlockMissing(name) else EntryMissing(name)
  }

  /**
   * The body of the autoresolve loop over `names`: the binding calls made,
   * and the fatal error that stopped it, if any.
   */
  function ResolveAll(program: nat, names: seq<string>, blocks: map<string, nat>, manager: map<string, Ubo>): (r: Resolution)
    ensures |r.actions| <= 2 * |names| && |r.actions| % 2 == 0
    ensures r.failure.None? ==> |r.actions| == 2 * |names|
    ensures r.failure.Some? ==> r.failure.value.name in names
    ensures forall i :: 0 <= i < |r.actions| ==> r.actions[i].BindBufferBase? || r.actions[i].UniformBlockBinding?
  {
    if names == [] then Resolution([], None)
    else
      var name := names[0];
      var loc := UniformBlockLocation(blocks, name);
      if loc == InvalidLocation then Resolution([], Some(BlockMissing(name)))
      else if name !in manager then Resolution([], Some(EntryMissing(name)))
      else
        var rest := ResolveAll(program, names[1..], blocks, manager);
        Resolution(BindUbo(program, loc, manager[name]) + rest.actions, rest.failure)
  }

  /** What `link()` returns and does, given the underlying link's result `linkOk`. */
  function LinkRun(linkOk: bool, program: nat, names: seq<string>, blocks: map<string, nat>,
                   manager: map<string, Ubo>): (run: (LinkOutcome, seq<GlAction>))
    ensures names == [] ==> run == (Linked(linkOk), [])
    ensures run.0.Linked? ==> run.0.ok == linkOk
    ensures names != [] ==> |run.1| >= 1 && run.1[0] == Bind(program)
    // the program is released exactly when the run is not stopped fatally
    ensures names != [] && run.0.Linked? ==> run.1[|run.1| - 1] == Release
    ensures run.0.Fatal? ==> Release !in run.1 && run.0.error.name in names
  {
    if names == [] then (Linked(linkOk), [])
    else
      var r := ResolveAll(program, names, blocks, manager);
      match r.failure
      case None => (Linked(linkOk), [Bind(program)] + r.actions + [Release])
      case Some(e) => (Fatal(e), [Bind(program)] + r.actions)
  }

  /** The index of the first name that is not resolvable, or `|names|` when every name is. */
  function FirstUnresolvable(names: seq<string>, blocks: map<string, nat>, manager: map<string, Ubo>): (k: nat)
    ensures k <= |names|
    ensures forall j :: 0 <= j < k ==> Resolvable(blocks, manager, names[j])
    ensures k < |names| ==> !Resolvable(blocks, manager, names[k])
  {
    if names == [] || !Resolvable(blocks, manager, names[0]) then 0
    else 1 + FirstUnresolvable(names[1..], blocks, manager)
  }

  /**
   * The binder processes names in list order and stops at the first
   * unresolvable one, `k`: it binds each of the `k` names before it exactly
   * once, block by block, binds nothing after it, and fails naming it.
   */
  lemma {:induction false} ResolveAllStopsAtFirstUnresolvable(program: nat, names: seq<string>,
                                                             blocks: map<string, nat>, manager: map<string, Ubo>, k: nat)
    requires k <= |names|
    requires forall j :: 0 <= j < k ==> Resolvable(blocks, manager, names[j])
    requires k < |names| ==> !Resolvable(blocks, manager, names[k])
    ensures var r := ResolveAll(program, names, blocks, manager);
      && r.failure == (if k == |names| then None else Some(ErrorFor(blocks, names[k])))
      && |r.actions| == 2 * k
      && forall j :: 0 <= j < k ==>
           Resolvable(blocks, manager, names[j]) &&
           r.actions[2 * j] == BindBufferBase(manager[names[j]].locationId, manager[names[j]].bufferId) &&
           r.actions[2 * j + 1] == UniformBlockBinding(program, blocks[names[j]], manager[names[j]].locationId)
  {
    if k > 0 {
      var tail := names[1..];
      assert forall j :: 0 <= j < k - 1 ==> tail[j] == names[j + 1];
      ResolveAllStopsAtFirstUnresolvable(program, tail, blocks, manager, k - 1);
      var r := ResolveAll(program, names, blocks, manager);
      var rest := ResolveAll(program, tail, blocks, manager);
      assert r.actions == BindUbo(program, blocks[names[0]], manager[names[0]]) + rest.actions;
      forall j | 1 <= j < k
        ensures r.actions[2 * j] == rest.actions[2 * (j - 1)]
        ensures r.actions[2 * j + 1] == rest.actions[2 * (j - 1) + 1]
      {
      }
    }
  }

  /** Autoresolve succeeds exactly when every listed name is resolvable. */
  lemma {:induction false} ResolveAllSucceedsIff(program: nat, names: seq<string>, blocks: map<string, nat>, manager: map<string, Ubo>)
    ensures ResolveAll(program, names, blocks, manager).failure.None? <==>
      forall j :: 0 <= j < |names| ==> Resolvable(blocks, manager, names[j])
  {
    var k := FirstUnresolvable(names, blocks, manager);
    ResolveAllStopsAtFirstUnresolvable(program, names, blocks, manager, k);
  }

  /**
   * The whole `link()` protocol. An empty autoresolve list issues no call at
   * all. Otherwise the program is bound, the names before the first
   * unresolvable one `k` get one buffer-base and one block binding each, in
   * list order, and then either every name succeeded and the program is
   * released, or the run stops fatally naming `names[k]` with nothing
   * released. A returned result is always the underlying link's, which
   * autoresolve never consults.
   */
  lemma LinkRunProtocol(linkOk: bool, program: nat, names: seq<string>, blocks: map<string, nat>, manager: map<string, Ubo>)
    ensures var (outcome, actions) := LinkRun(linkOk, program, names, blocks, manager);
      var k := FirstUnresolvable(names, blocks, manager);
      && (names == [] ==> outcome == Linked(linkOk) && actions == [])
      && (names != [] ==>
            && |actions| == 1 + 2 * k + (if k == |names| then 1 else 0)
            && actions[0] == Bind(program)
            && (forall j :: 0 <= j < k ==>
                  Resolvable(blocks, manager, names[j]) &&
                  actions[1 + 2 * j] == BindBufferBase(manager[names[j]].locationId, manager[names[j]].bufferId) &&
                  actions[2 + 2 * j] == UniformBlockBinding(program, blocks[names[j]], manager[names[j]].locationId))
            && (k == |names| ==> actions[|actions| - 1] == Release && outcome == Linked(linkOk))
            && (k < |names| ==> outcome == Fatal(ErrorFor(blocks, names[k]))))
  {
    if names != [] {
      var k := FirstUnresolvable(names, blocks, manager);
      ResolveAllStopsAtFirstUnresolvable(program, names, blocks, manager, k);
      var r := ResolveAll(program, names, blocks, manager);
      var actions := LinkRun(linkOk, program, names, blocks, manager).1;
      var tail := if k == |names| then [Release] else [];
      assert actions == [Bind(program)] + r.actions + tail;
      forall j | 0 <= j < k
        ensures actions[1 + 2 * j] == r.actions[2 * j] && actions[2 + 2 * j] == r.actions[2 * j + 1]
      {
      }
    }
  }

  /** The underlying link result never changes which GL calls autoresolve makes. */
  lemma LinkActionsIgnoreLinkResult(program: nat, names: seq<string>, blocks: map<string, nat>, manager: map<string, Ubo>)
    ensures LinkRun(true, program, names, blocks, manager).1 == LinkRun(false, program, names, blocks, manager).1
  {
  }

  /**
   * A run that bound the program and then the first `k` names, and stops at
   * `k` (an unresolvable name, or the end of the list), is the run `LinkRun`
   * describes.
   */
  lemma LinkRunFromBoundPrefix(linkOk: bool, program: nat, names: seq<string>, blocks: map<string, nat>,
                               manager: map<string, Ubo>, k: nat, outcome: LinkOutcome, actions: seq<GlAction>)
    requires names != [] && k <= |names|
    requires k < |names| ==> !Resolvable(blocks, manager, names[k])
    requires k < |names| ==> outcome == Fatal(ErrorFor(blocks, names[k]))
    requires |actions| == 1 + 2 * k && actions[0] == Bind(program)
    requires forall j :: 0 <= j < k ==>
      Resolvable(blocks, manager, names[j]) &&
      actions[1 + 2 * j] == BindBufferBase(manager[names[j]].locationId, manager[names[j]].bufferId) &&
      actions[2 + 2 * j] == UniformBlockBinding(program, blocks[names[j]], manager[names[j]].locationId)
    ensures var run := LinkRun(linkOk, program, names, blocks, manager);
      k < |names| ==> run == (outcome, actions)
    ensures var run := LinkRun(linkOk, program, names, blocks, manager);
      k == |names| ==> run == (Linked(linkOk), actions + [Release])
  {
    ResolveAllStopsAtFirstUnresolvable(program, names, blocks, manager, k);
    var r := ResolveAll(program, names, blocks, manager);
    assert actions == [Bind(program)] + r.actions by {
      forall j | 0 <= j < k
        ensures actions[1 + 2 * j] == r.actions[2 * j] && actions[2 + 2 * j] == r.actions[2 * j + 1]
      {
      }
      forall i | 1 <= i < |actions| ensures actions[i] == ([Bind(program)] + r.actions)[i] {
        var j := (i - 1) / 2;
        assert i == 1 + 2 * j || i == 2 + 2 * j;
      }
    }
  }
}
