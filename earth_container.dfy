/** The children of the earth container, and what `setData`, `addData` and `remove` do to
    them. The content itself is built and removed by `OperateView`, which is not part of
    this model: its build step is an input (built groups, or a failure), and its removal is
    the filter `Removed` below, whose behaviour is an ASSUMPTION about that collaborator. */
module Container {

  /** A child of the earth container: the static earth group (base mesh plus map shapes),
      the overlay sprite, or a data group built for a type label. */
  datatype Node = EarthGroup | SpriteNode | DataGroup(kind: string, id: string)

  /** The ids argument of `remove`: an id list, or the wildcard `"removeAll"`. */
  datatype Selection = RemoveAll | Ids(ids: seq<string>)

  /** What `await OperateView.setData(type, data)` gives back: the groups, or a rejection. */
  datatype Build = Built(groups: seq<Node>) | Failed

  /** The children the container starts with, as `addFigures` adds them. */
  const Initial: seq<Node> := [EarthGroup, SpriteNode]

  /** ASSUMED: `OperateView.remove(container, kind, sel)` detaches exactly the data groups
      of that kind that `sel` names (all of them for the wildcard). */
  predicate Selected(n: Node, kind: string, sel: Selection)
  {
    n.DataGroup? && n.kind == kind && (sel.RemoveAll? || n.id in sel.ids)
  }

  /** The container's children after `OperateView.remove`, under the assumption above:
      selected data groups leave, everything else stays, in order. */
  function Removed(cs: seq<Node>, kind: string, sel: Selection): (r: seq<Node>)
    ensures |r| <= |cs|
  {
    if cs == [] then []
    else (if Selected(cs[0], kind, sel) then [] else [cs[0]]) + Removed(cs[1..], kind, sel)
  }

  /** The data groups of one type among the children, in order. */
  function OfKind(cs: seq<Node>, kind: string): (r: seq<Node>)
    ensures |r| <= |cs|
  {
    if cs == [] then []
    else (if cs[0].DataGroup? && cs[0].kind == kind then [cs[0]] else []) + OfKind(cs[1..], kind)
  }

  /** Every group a build produced carries the build's type label. */
  ghost predicate AllOfKind(groups: seq<Node>, kind: string)
  {
    forall i :: 0 <= i < |groups| ==> groups[i].DataGroup? && groups[i].kind == kind
  }

  /** `addData`: the built groups go after the existing children; a failed build changes nothing. */
  function AfterAdd(cs: seq<Node>, b: Build): (r: seq<Node>)
    ensures cs <= r
    ensures b.Failed? ==> r == cs
    ensures b.Built? ==> r[|cs|..] == b.groups
  {
    match b
    case Built(groups) => cs + groups
    case Failed => cs
  }

  /** `setData`: the wildcard removal for the type first, then `addData`'s append. The
      removal stands even when the build fails. */
  function AfterSet(cs: seq<Node>, kind: string, b: Build): (r: seq<Node>)
    ensures Removed(cs, kind, RemoveAll) <= r
    ensures b.Failed? ==> r == Removed(cs, kind, RemoveAll)
    ensures b.Built? ==> r[|Removed(cs, kind, RemoveAll)|..] == b.groups
  {
    AfterAdd(Removed(cs, kind, RemoveAll), b)
  }

  /** Removal keeps exactly the children it does not select. */
  lemma {:induction false} RemovedMembers(cs: seq<Node>, kind: string, sel: Selection)
    ensures forall n :: n in Removed(cs, kind, sel) <==> n in cs && !Selected(n, kind, sel)
  {
    if cs != [] {
      RemovedMembers(cs[1..], kind, sel);
      assert cs == [cs[0]] + cs[1..];
    }
  }

  /** Removal that selects nothing changes nothing. */
  lemma {:induction false} RemovedNothing(cs: seq<Node>, kind: string, sel: Selection)
    requires forall i :: 0 <= i < |cs| ==> !Selected(cs[i], kind, sel)
    ensures Removed(cs, kind, sel) == cs
  {
    if cs != [] {
      RemovedNothing(cs[1..], kind, sel);
      assert cs == [cs[0]] + cs[1..];
    }
  }

  /** Removing twice removes nothing more. */
  lemma {:induction false} RemovedIdempotent(cs: seq<Node>, kind: string, sel: Selection)
    ensures Removed(Removed(cs, kind, sel), kind, sel) == Removed(cs, kind, sel)
  {
    var r := Removed(cs, kind, sel);
    RemovedMembers(cs, kind, sel);
    assert forall i :: 0 <= i < |r| ==> r[i] in r;
    RemovedNothing(r, kind, sel);
  }

  /** The data groups of one type are the children that are data groups of that type. */
  lemma {:induction false} OfKindMembers(cs: seq<Node>, kind: string)
    ensures forall n :: n in OfKind(cs, kind) <==> n in cs && n.DataGroup? && n.kind == kind
  {
    if cs != [] {
      OfKindMembers(cs[1..], kind);
      assert cs == [cs[0]] + cs[1..];
    }
  }

  lemma {:induction false} RemovedAppend(a: seq<Node>, b: seq<Node>, kind: string, sel: Selection)
    ensures Removed(a + b, kind, sel) == Removed(a, kind, sel) + Removed(b, kind, sel)
  {
    if a == [] {
      assert a + b == b;
    } else {
      assert (a + b)[1..] == a[1..] + b;
      RemovedAppend(a[1..], b, kind, sel);
    }
  }

  lemma {:induction false} OfKindAppend(a: seq<Node>, b: seq<Node>, kind: string)
    ensures OfKind(a + b, kind) == OfKind(a, kind) + OfKind(b, kind)
  {
    if a == [] {
      assert a + b == b;
    } else {
      assert (a + b)[1..] == a[1..] + b;
      OfKindAppend(a[1..], b, kind);
    }
  }

  lemma {:induction false} OfKindOfAllOfKind(groups: seq<Node>, kind: string)
    requires AllOfKind(groups, kind)
    ensures OfKind(groups, kind) == groups
  {
    if groups != [] {
      assert AllOfKind(groups[1..], kind) by {
        forall i | 0 <= i < |groups[1..]| ensures groups[1..][i].DataGroup? && groups[1..][i].kind == kind {
          assert groups[1..][i] == groups[i + 1];
        }
      }
      OfKindOfAllOfKind(groups[1..], kind);
    }
  }

  /** Removal under one type leaves the data groups of every other type as they were, in order. */
  lemma {:induction false} RemovedKeepsOtherKinds(cs: seq<Node>, kind: string, sel: Selection, other: string)
    requires other != kind
    ensures OfKind(Removed(cs, kind, sel), other) == OfKind(cs, other)
  {
    if cs != [] {
      var head := if Selected(cs[0], kind, sel) then [] else [cs[0]];
      OfKindAppend(head, Removed(cs[1..], kind, sel), other);
      OfKindAppend([cs[0]], cs[1..], other);
      assert [cs[0]] + cs[1..] == cs;
      assert [cs[0]][1..] == [] && head[..] == head;
      RemovedKeepsOtherKinds(cs[1..], kind, sel, other);
    }
  }

  /** The wildcard removal leaves no data group of that type. */
  lemma {:induction false} RemoveAllEmpties(cs: seq<Node>, kind: string)
    ensures OfKind(Removed(cs, kind, RemoveAll), kind) == []
  {
    if cs != [] {
      var head := if Selected(cs[0], kind, RemoveAll) then [] else [cs[0]];
      OfKindAppend(head, Removed(cs[1..], kind, RemoveAll), kind);
      assert head != [] ==> head[1..] == [];
      RemoveAllEmpties(cs[1..], kind);
    }
  }

  /** The wildcard removal of a type empties a build made only of that type. */
  lemma {:induction false} RemoveAllOfKind(groups: seq<Node>, kind: string)
    requires AllOfKind(groups, kind)
    ensures Removed(groups, kind, RemoveAll) == []
  {
    if groups != [] {
      assert AllOfKind(groups[1..], kind) by {
        forall i | 0 <= i < |groups[1..]| ensures groups[1..][i].DataGroup? && groups[1..][i].kind == kind {
          assert groups[1..][i] == groups[i + 1];
        }
      }
      RemoveAllOfKind(groups[1..], kind);
    }
  }

  /** Nothing that survived a wildcard removal of a type is selected by a later removal of it. */
  lemma SurvivorsUnselected(cs: seq<Node>, kind: string, sel: Selection)
    ensures Removed(Removed(cs, kind, RemoveAll), kind, sel) == Removed(cs, kind, RemoveAll)
  {
    var kept := Removed(cs, kind, RemoveAll);
    RemovedMembers(cs, kind, RemoveAll);
    assert forall i :: 0 <= i < |kept| ==> kept[i] in kept;
    RemovedNothing(kept, kind, sel);
  }

  /** `setData` replaces a type's content: when the build succeeds with groups of that type,
      they are the type's data groups afterwards, in build order, and every other child is
      what it was, in order. */
  lemma SetDataReplaces(cs: seq<Node>, kind: string, groups: seq<Node>)
    requires AllOfKind(groups, kind)
    ensures var r := AfterSet(cs, kind, Built(groups));
            && OfKind(r, kind) == groups
            && Removed(r, kind, RemoveAll) == Removed(cs, kind, RemoveAll)
  {
    var kept := Removed(cs, kind, RemoveAll);
    OfKindAppend(kept, groups, kind);
    RemoveAllEmpties(cs, kind);
    OfKindOfAllOfKind(groups, kind);
    RemovedAppend(kept, groups, kind, RemoveAll);
    RemoveAllOfKind(groups, kind);
    SurvivorsUnselected(cs, kind, RemoveAll);
  }

  /** After `setData(type, …)` and then `remove(type)` there is no data group of that
      type left, whether the build succeeded or not. */
  lemma SetThenRemoveAll(cs: seq<Node>, kind: string, b: Build)
    ensures OfKind(Removed(AfterSet(cs, kind, b), kind, RemoveAll), kind) == []
  {
    RemoveAllEmpties(AfterSet(cs, kind, b), kind);
  }

  /** Two successful `addData` calls leave the union of both builds after the old children,
      the first build's groups before the second's. */
  lemma AddTwice(cs: seq<Node>, g1: seq<Node>, g2: seq<Node>)
    ensures AfterAdd(AfterAdd(cs, Built(g1)), Built(g2)) == cs + g1 + g2
  {
  }

  /** The static earth group and sprite are never data groups, so no removal touches them. */
  lemma StaticsSurvive(cs: seq<Node>, kind: string, sel: Selection, b: Build)
    requires EarthGroup in cs && SpriteNode in cs
    ensures EarthGroup in Removed(cs, kind, sel) && SpriteNode in Removed(cs, kind, sel)
    ensures EarthGroup in AfterSet(cs, kind, b) && SpriteNode in AfterSet(cs, kind, b)
  {
    RemovedMembers(cs, kind, sel);
    RemovedMembers(cs, kind, RemoveAll);
  }

  /** `setData("markers", [a, b])` then `remove("markers", ["a"])` leaves exactly group b
      under "markers". */
  lemma MarkersScenario(cs: seq<Node>)
    ensures var built := [DataGroup("markers", "a"), DataGroup("markers", "b")];
            OfKind(Removed(AfterSet(cs, "markers", Built(built)), "markers", Ids(["a"])), "markers")
              == [DataGroup("markers", "b")]
  {
    var a, b := DataGroup("markers", "a"), DataGroup("markers", "b");
    var sel := Ids(["a"]);
    var kept := Removed(cs, "markers", RemoveAll);
    assert AfterSet(cs, "markers", Built([a, b])) == kept + [a, b];
    RemovedAppend(kept, [a, b], "markers", sel);
    SurvivorsUnselected(cs, "markers", sel);
    assert Removed([a, b], "markers", sel) == [b] by {
      assert [a, b][1..] == [b] && [b][1..] == [];
      assert Removed([b], "markers", sel) == [b];
    }
    OfKindAppend(kept, [b], "markers");
    RemoveAllEmpties(cs, "markers");
    assert OfKind([b], "markers") == [b] by {
      assert [b][1..] == [];
    }
  }
}
