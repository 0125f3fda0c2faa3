/**
 * What the results page shows, as the sequence of page elements the
 * application emits, and the two display loops: `render_list`, which lists
 * the items of one field, and the loop that shows each cited source.
 */
module Render {
  import opened Wrappers
  import opened Json
  import SourceLabels

  /** One call that puts something on the page, with what it was given.
      Bodies the application passes on without formatting stay values. */
  datatype Element =
    | Subheader(text: string)
    | Markdown(text: string)
    | Caption(body: Json)
    | Write(body: Json)
    | Info(body: Json)
    | Warning(text: string)
    | Error(text: string)
    | Code(text: string)
    | Exception(fault: Fault)
    | Expander(title: string)

  /** What a run of display steps put on the page, and the exception that
      stopped it, if one did. */
  datatype Partial = Partial(shown: seq<Element>, fault: Option<Fault>)

  /** `shown` followed by what `p` shows. */
  function Prepend(shown: seq<Element>, p: Partial): (r: Partial)
    ensures r.fault == p.fault && r.shown == shown + p.shown
  {
    Partial(shown + p.shown, p.fault)
  }

  /** The line `render_list` writes for one item: `f"- {item}"`. */
  function Bullet(item: Json): Element {
    Write(Str("- " + Show(item)))
  }

  /** The line `render_list` writes when there is nothing to list. */
  const NoneLine: Element := Write(Str("- None"))

  /** What `render_list(items)` writes: the single line "- None" when `items`
      is absent or empty (any false value), and otherwise one bullet per item,
      in order; a non-zero number cannot be iterated. */
  function ListLines(items: Json): (r: Result<seq<Element>, Fault>)
    ensures !Truthy(items) ==> r == Success([NoneLine])
    ensures r.Failure? <==> Truthy(items) && items.Num?
    ensures r.Success? ==> |r.value| >= 1
    ensures Truthy(items) && items.Arr? ==>
              r.Success? && |r.value| == |items.items|
              && forall i | 0 <= i < |items.items| :: r.value[i] == Write(Str("- " + Show(items.items[i])))
    ensures Truthy(items) && items.Str? ==>
              r.Success? && |r.value| == |items.s|
              && forall i | 0 <= i < |items.s| :: r.value[i] == Write(Str("- " + [items.s[i]]))
    ensures Truthy(items) && items.Obj? ==>
              r.Success? && |r.value| == |items.members|
              && forall i | 0 <= i < |items.members| :: r.value[i] == Write(Str("- " + items.members[i].0))
  {
    if !Truthy(items) then Success([NoneLine])
    else
      match Iterate(items)
      case Failure(f) => Failure(f)
      case Success(xs) => Success(seq(|xs|, i requires 0 <= i < |xs| => Bullet(xs[i])))
  }

  /** `render_list`: writes the lines one item at a time. */
  method RenderList(items: Json) returns (r: Result<seq<Element>, Fault>)
    ensures r == ListLines(items)
  {
    if !Truthy(items) {
      return Success([NoneLine]);
    }
    var iterated := Iterate(items);
    if iterated.Failure? {
      return Failure(iterated.error);
    }
    var xs := iterated.value;
    var lines: seq<Element> := [];
    for i := 0 to |xs|
      invariant |lines| == i
      invariant forall k | 0 <= k < i :: lines[k] == Bullet(xs[k])
    {
      lines := lines + [Bullet(xs[i])];
    }
    assert lines == seq(|xs|, i requires 0 <= i < |xs| => Bullet(xs[i]));
    return Success(lines);
  }

  /** What the sources loop shows for one cited source (`EntryLinesShape`
      says what that is). */
  function EntryLines(src: Json): (r: Result<seq<Element>, Fault>)
    ensures r.Success? ==> |r.value| == 3
  {
    if !src.Obj? then Failure(NoGetMethod(KindOf(src)))
    else
      match SourceLabels.Label(Get(src.members, "source_id", Null))
      case Failure(f) => Failure(f)
      case Success(shownAs) =>
        Success([Markdown("**" + Show(shownAs) + "**"), Caption(Get(src.members, "reason", Str(""))), Markdown("---")])
  }

  /** One cited source is shown as its label in bold, its reason ("" when it
      has none) and a rule. An entry that is not a dictionary, or whose
      `source_id` is a list or dictionary, raises instead. */
  lemma EntryLinesShape(src: Json)
    ensures EntryLines(src).Success? <==> src.Obj? && Hashable(Get(src.members, "source_id", Null))
    ensures !src.Obj? ==> EntryLines(src) == Failure(NoGetMethod(KindOf(src)))
    ensures EntryLines(src).Success? ==>
              var id := Get(src.members, "source_id", Null);
              EntryLines(src).value ==
                [Markdown("**" + Show(SourceLabels.Label(id).value) + "**"),
                 Caption(Get(src.members, "reason", Str(""))),
                 Markdown("---")]
    ensures EntryLines(src).Success? && (forall i | 0 <= i < |src.members| :: src.members[i].0 != "reason") ==>
              EntryLines(src).value[1] == Caption(Str(""))
  {
  }

  /** What the sources loop shows for `entries`: each entry's lines in turn,
      up to the first entry that raises. */
  function EntriesLines(entries: seq<Json>): Partial {
    if entries == [] then Partial([], None)
    else
      match EntryLines(entries[0])
      case Failure(f) => Partial([], Some(f))
      case Success(lines) => Prepend(lines, EntriesLines(entries[1..]))
  }

  /** What `for src in sources: ...` shows. */
  function SourceLines(sources: Json): Partial {
    match Iterate(sources)
    case Failure(f) => Partial([], Some(f))
    case Success(entries) => EntriesLines(entries)
  }

  /** None of the elements is a `st.code` block. */
  predicate NoCode(shown: seq<Element>) {
    forall i | 0 <= i < |shown| :: !shown[i].Code?
  }

  /** Two runs without a code block make one. */
  lemma NoCodeJoin(a: seq<Element>, b: seq<Element>)
    requires NoCode(a) && NoCode(b)
    ensures NoCode(a + b)
  {
    forall i | 0 <= i < |a + b|
      ensures !(a + b)[i].Code?
    {
      if i < |a| { assert (a + b)[i] == a[i]; } else { assert (a + b)[i] == b[i - |a|]; }
    }
  }

  /** `render_list` writes only `st.write` lines. */
  lemma ListLinesNoCode(items: Json)
    ensures ListLines(items).Success? ==> NoCode(ListLines(items).value)
  {
  }

  /** The sources loop shows no code block. */
  lemma {:induction false} EntriesLinesNoCode(entries: seq<Json>)
    ensures NoCode(EntriesLines(entries).shown)
  {
    if entries != [] && EntryLines(entries[0]).Success? {
      EntriesLinesNoCode(entries[1..]);
      NoCodeJoin(EntryLines(entries[0]).value, EntriesLines(entries[1..]).shown);
    }
  }

  /** Three elements in front move every later group of three by one group. */
  lemma ShiftByThree(head: seq<Element>, tail: seq<Element>, i: nat)
    requires |head| == 3 && 0 < i && 3 * i + 3 <= |head| + |tail|
    ensures (head + tail)[3 * i..3 * i + 3] == tail[3 * (i - 1)..3 * (i - 1) + 3]
  {
  }

  /** When no entry raises, every entry is shown, in input order, as three
      lines: one label and one reason per entry. */
  lemma {:induction false} SourcesShownInOrder(entries: seq<Json>)
    requires forall i | 0 <= i < |entries| :: EntryLines(entries[i]).Success?
    ensures EntriesLines(entries).fault == None
    ensures |EntriesLines(entries).shown| == 3 * |entries|
    ensures forall i | 0 <= i < |entries| ::
              EntriesLines(entries).shown[3 * i..3 * i + 3] == EntryLines(entries[i]).value
  {
    if entries != [] {
      var rest := entries[1..];
      SourcesShownInOrder(rest);
      var head := EntryLines(entries[0]).value;
      var shown := EntriesLines(entries).shown;
      assert shown == head + EntriesLines(rest).shown;
      forall i | 0 <= i < |entries|
        ensures shown[3 * i..3 * i + 3] == EntryLines(entries[i]).value
      {
        if i > 0 {
          ShiftByThree(head, EntriesLines(rest).shown, i);
          assert entries[i] == rest[i - 1];
        }
      }
    }
  }

  /** The first entry that raises ends the loop: the entries before it are
      shown in full and its exception is what the loop raises. */
  lemma {:induction false} SourcesStopAtFirstFault(entries: seq<Json>, k: nat)
    requires k < |entries|
    requires forall i | 0 <= i < k :: EntryLines(entries[i]).Success?
    requires EntryLines(entries[k]).Failure?
    ensures EntriesLines(entries).fault == Some(EntryLines(entries[k]).error)
    ensures |EntriesLines(entries).shown| == 3 * k
    ensures EntriesLines(entries).shown == EntriesLines(entries[..k]).shown
  {
    if k > 0 {
      SourcesStopAtFirstFault(entries[1..], k - 1);
      assert entries[..k][0] == entries[0] && entries[..k][1..] == entries[1..][..k - 1];
    }
  }

  /** Showing `a` and then what `Prepend(b, p)` shows is showing `a + b` and
      then what `p` shows. */
  lemma PrependTwice(a: seq<Element>, b: seq<Element>, p: Partial)
    ensures Prepend(a, Prepend(b, p)) == Prepend(a + b, p)
  {
    assert a + (b + p.shown) == (a + b) + p.shown;
  }

  /** The loop's step: an entry that does not raise contributes its lines
      before those of the entries after it. */
  lemma EntriesLinesStep(entries: seq<Json>, i: nat)
    requires i < |entries| && EntryLines(entries[i]).Success?
    ensures EntriesLines(entries[i..]) == Prepend(EntryLines(entries[i]).value, EntriesLines(entries[i + 1..]))
  {
    assert entries[i..][0] == entries[i] && entries[i..][1..] == entries[i + 1..];
  }

  /** The body of the sources loop for one cited source: looks up its label,
      then shows the label, the reason and a rule. */
  method ShowEntry(src: Json) returns (r: Result<seq<Element>, Fault>)
    ensures r == EntryLines(src)
  {
    if !src.Obj? {
      return Failure(NoGetMethod(KindOf(src)));
    }
    var shownAs := SourceLabels.Label(Get(src.members, "source_id", Null));
    if shownAs.Failure? {
      return Failure(shownAs.error);
    }
    var lines: seq<Element> := [];
    lines := lines + [Markdown("**" + Show(shownAs.value) + "**")];
    lines := lines + [Caption(Get(src.members, "reason", Str("")))];
    lines := lines + [Markdown("---")];
    assert lines == [lines[0], lines[1], lines[2]];
    return Success(lines);
  }

  /** The sources loop: shows each cited source in turn. */
  method RenderSources(sources: Json) returns (p: Partial)
    ensures p == SourceLines(sources)
  {
    var iterated := Iterate(sources);
    if iterated.Failure? {
      return Partial([], Some(iterated.error));
    }
    var entries := iterated.value;
    var shown: seq<Element> := [];
    var i := 0;
    while i < |entries|
      invariant 0 <= i <= |entries|
      invariant EntriesLines(entries) == Prepend(shown, EntriesLines(entries[i..]))
    {
      var src := entries[i];
      var lines := ShowEntry(src);
      if lines.Failure? {
        return Partial(shown, Some(lines.error));
      }
      ghost var before := shown;
      shown := shown + lines.value;
      EntriesLinesStep(entries, i);
      PrependTwice(before, lines.value, EntriesLines(entries[i + 1..]));
      i := i + 1;
    }
    assert entries[i..] == [];
    return Partial(shown, None);
  }
}
