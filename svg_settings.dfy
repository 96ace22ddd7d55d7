/** The SVG settings dialog: the form built from an SVG row, the owner
    gate, the save rule and the update payload with its comma-separated
    tag field. */
module SvgSettings {
  import opened Common
  import opened Strings
  import opened Tables
  import opened Backend

  datatype SvgForm = SvgForm(name: string, description: string, projectId: Id, tags: string)

  const TagSeparator := ", "

  /** `x || ""` on an optional text. */
  function OrEmpty(x: Option<string>): string {
    match x
    case None => ""
    case Some(s) => s
  }

  /** `s || null`: the empty text becomes a missing value. */
  function NullIfEmpty(s: string): (r: Option<string>)
    ensures r.None? <==> s == ""
    ensures r.Some? ==> r.value == s
  {
    if s == "" then None else Some(s)
  }

  lemma NullIfEmptyOrEmpty(x: Option<string>)
    ensures NullIfEmpty(OrEmpty(x)) == if x == Some("") then None else x
  {
  }

  /** `svg.tags?.join(", ") || ""`. */
  function InitialTagsField(tags: Option<seq<string>>): string {
    match tags
    case None => ""
    case Some(ts) => Join(ts, TagSeparator)
  }

  function InitialForm(svg: SvgRow): SvgForm {
    SvgForm(svg.name, OrEmpty(svg.description), svg.projectId, InitialTagsField(svg.tags))
  }

  predicate NonEmpty(s: string) { s != "" }

  /** A tag that survives the field's parse unchanged. */
  predicate IsTagAtom(t: string) {
    t != "" && Trimmed(t) && ',' !in t
  }

  /** `field.split(",").map(tag => tag.trim()).filter(Boolean)`. */
  function TagPieces(field: string): (r: seq<string>)
    ensures forall t :: t in r ==> IsTagAtom(t)
  {
    var pieces := Split(field, ',');
    var trimmed := Map(pieces, Trim);
    forall t | t in trimmed
      ensures Trimmed(t) && ',' !in t
    {
      var k :| 0 <= k < |pieces| && trimmed[k] == t;
      TrimChars(pieces[k]);
    }
    Filter(trimmed, NonEmpty)
  }

  /** The saved `tags`: none for an empty field, else its pieces. */
  function ParseTagsField(field: string): (r: Option<seq<string>>)
    ensures r.None? <==> field == ""
    ensures r.Some? ==> forall t :: t in r.value ==> IsTagAtom(t)
  {
    if field == "" then None else Some(TagPieces(field))
  }

  lemma MapAppend<T, U>(a: seq<T>, b: seq<T>, f: T -> U)
    ensures Map(a + b, f) == Map(a, f) + Map(b, f)
  {
  }

  /** A tag with at most one leading space trims back to the tag. */
  lemma HeadPiece(lead: string, t: string)
    requires lead == "" || lead == " "
    requires IsTagAtom(t)
    ensures Trim(lead + t) == t && ',' !in lead + t
  {
    if lead == " " {
      TrimLeadingSpace(t);
    } else {
      assert lead + t == t;
    }
    TrimOfTrimmed(t);
  }

  /** A field without a comma is one piece. */
  lemma SinglePiece(head: string)
    requires ',' !in head && Trim(head) != ""
    ensures TagPieces(head) == [Trim(head)]
  {
    SplitWithout(head, ',');
    assert Map([head], Trim) == [Trim(head)];
    assert Filter([Trim(head)], NonEmpty) == [Trim(head)] + Filter([], NonEmpty);
  }

  /** The first comma ends the first piece. */
  lemma ConsPiece(head: string, tail: string)
    requires ',' !in head && Trim(head) != ""
    ensures TagPieces(head + [','] + tail) == [Trim(head)] + TagPieces(tail)
  {
    SplitAtFirst(head, ',', tail);
    MapAppend([head], Split(tail, ','), Trim);
    assert Map([head], Trim) == [Trim(head)];
    FilterAppend([Trim(head)], Map(Split(tail, ','), Trim), NonEmpty);
    assert Filter([Trim(head)], NonEmpty) == [Trim(head)] + Filter([], NonEmpty);
  }

  lemma JoinCons(lead: string, ts: seq<string>)
    requires |ts| > 1
    ensures lead + Join(ts, TagSeparator) == (lead + ts[0]) + [','] + (" " + Join(ts[1..], TagSeparator))
  {
    var j := Join(ts[1..], TagSeparator);
    assert Join(ts, TagSeparator) == ts[0] + TagSeparator + j;
    assert TagSeparator == [','] + " ";
  }

  lemma HeadAndRest(ts: seq<string>)
    requires ts != []
    ensures ts == [ts[0]] + ts[1..]
  {
  }

  /** One step of the round trip: if the rest of the list comes back from
      its pieces, so does the whole list. */
  lemma PiecesOfJoinStep(lead: string, ts: seq<string>)
    requires lead == "" || lead == " "
    requires |ts| > 1 && IsTagAtom(ts[0])
    requires TagPieces(" " + Join(ts[1..], TagSeparator)) == ts[1..]
    ensures TagPieces(lead + Join(ts, TagSeparator)) == ts
  {
    var head := lead + ts[0];
    var tail := " " + Join(ts[1..], TagSeparator);
    HeadPiece(lead, ts[0]);
    JoinCons(lead, ts);
    ConsPiece(head, tail);
    HeadAndRest(ts);
  }

  /** The pieces of a joined list, with or without one leading space, are
      the list itself. */
  lemma {:induction false} PiecesOfJoin(lead: string, ts: seq<string>)
    requires lead == "" || lead == " "
    requires ts != []
    requires forall t :: t in ts ==> IsTagAtom(t)
    ensures TagPieces(lead + Join(ts, TagSeparator)) == ts
    decreases ts
  {
    if |ts| == 1 {
      HeadPiece(lead, ts[0]);
      assert Join(ts, TagSeparator) == ts[0];
      SinglePiece(lead + ts[0]);
    } else {
      assert forall t :: t in ts[1..] ==> t in ts;
      PiecesOfJoin(" ", ts[1..]);
      PiecesOfJoinStep(lead, ts);
    }
  }

  /** Opening the dialog and saving without edits gives back the stored
      tags when they are a non-empty list of atoms; a missing or empty list
      is saved as missing. */
  lemma {:induction false} TagsFieldRoundTrip(tags: Option<seq<string>>)
    requires tags.Some? ==> forall t :: t in tags.value ==> IsTagAtom(t)
    ensures ParseTagsField(InitialTagsField(tags)) == if tags.Some? && tags.value != [] then tags else None
  {
    if tags.Some? && tags.value != [] {
      var ts := tags.value;
      assert "" + Join(ts, TagSeparator) == Join(ts, TagSeparator);
      PiecesOfJoin("", ts);
      assert Join(ts, TagSeparator) != "" by {
        if |ts| == 1 {
          assert IsTagAtom(ts[0]);
        } else {
          assert |Join(ts, TagSeparator)| >= |TagSeparator|;
        }
      }
    }
  }

  /** The update `handleSave` sends. */
  function SavePayload(form: SvgForm): (u: SvgUpdate)
    ensures u.name == form.name && u.projectId == form.projectId
    ensures u.description == NullIfEmpty(form.description)
    ensures u.tags == ParseTagsField(form.tags)
  {
    SvgUpdate(form.name, NullIfEmpty(form.description), form.projectId, ParseTagsField(form.tags))
  }

  /** Saving the untouched form keeps name, project and tags (given clean
      tags) and only turns an empty description into a missing one. */
  lemma UntouchedSave(svg: SvgRow)
    requires svg.tags.Some? ==> forall t :: t in svg.tags.value ==> IsTagAtom(t)
    ensures var u := SavePayload(InitialForm(svg));
      && u.name == svg.name && u.projectId == svg.projectId
      && u.description == (if svg.description == Some("") then None else svg.description)
      && u.tags == (if svg.tags.Some? && svg.tags.value != [] then svg.tags else None)
  {
    TagsFieldRoundTrip(svg.tags);
    NullIfEmptyOrEmpty(svg.description);
  }

  /** The dialog is rendered only for the signed-in owner of the SVG. */
  function ShowsSettings(user: Option<User>, svg: SvgRow): (r: bool)
    ensures r <==> IsOwner(user, svg.userId)
  {
    !(user.None? || user.value.id != svg.userId)
  }

  /** The save button is enabled iff no save is pending and a name is set. */
  function SaveEnabled(isPending: bool, form: SvgForm): (r: bool)
    ensures r <==> !isPending && |form.name| > 0
  {
    !(isPending || form.name == "")
  }

  /** `handleSave` followed by the mutation: one update of the SVG row. */
  method HandleSave(client: Client, svg: SvgRow, form: SvgForm, ok: bool) returns (success: bool)
    modifies client
    ensures success == ok
    ensures client.db == if ok then old(client.db).(svgs := WithSvgUpdate(old(client.db).svgs, svg.id, SavePayload(form)))
                         else old(client.db)
    ensures client.log == old(client.log) + [UpdateSvgCall(svg.id, SavePayload(form))]
    ensures client.session == old(client.session)
  {
    success := client.UpdateSvg(svg.id, SavePayload(form), ok);
  }
}
