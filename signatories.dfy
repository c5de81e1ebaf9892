/** The authorized-signatories table shared by both onboarding wizards, and the
    consent check that guards leaving the consent step. */
module Signatories {

  /** One row of the table: a required name and an optional title. */
  datatype Signatory = Signatory(name: string, title: string)

  /** The two editable columns of a row. */
  datatype Field = Name | Title

  /** The row a wizard starts with and the row "Add Signatory" appends. */
  const Blank: Signatory := Signatory("", "")

  /** A copy of `s` whose column `field` holds `value`. */
  function WithField(s: Signatory, field: Field, value: string): Signatory
  {
    match field
    case Name => s.(name := value)
    case Title => s.(title := value)
  }

  /** The table after editing column `field` of row `index`: the rows are mapped one
      by one, and only the row whose position equals `index` is replaced.  An index
      outside the table matches no row. */
  function Updated(sigs: seq<Signatory>, index: int, field: Field, value: string): (r: seq<Signatory>)
    ensures |r| == |sigs|
    ensures forall i :: 0 <= i < |sigs| && i != index ==> r[i] == sigs[i]
    ensures 0 <= index < |sigs| ==> r[index] == WithField(sigs[index], field, value)
  {
    if sigs == [] then []
    else [if index == 0 then WithField(sigs[0], field, value) else sigs[0]]
         + Updated(sigs[1..], index - 1, field, value)
  }

  /** Editing row `index` is the point update at `index` when the row exists, and
      leaves the table as it was otherwise. */
  lemma UpdatedIsPointUpdate(sigs: seq<Signatory>, index: int, field: Field, value: string)
    ensures 0 <= index < |sigs| ==>
              Updated(sigs, index, field, value) == sigs[index := WithField(sigs[index], field, value)]
    ensures !(0 <= index < |sigs|) ==> Updated(sigs, index, field, value) == sigs
  {
    var r := Updated(sigs, index, field, value);
    if 0 <= index < |sigs| {
      assert forall i :: 0 <= i < |sigs| ==> r[i] == sigs[index := WithField(sigs[index], field, value)][i];
    } else {
      assert forall i :: 0 <= i < |sigs| ==> r[i] == sigs[i];
    }
  }

  /** Some row has an empty name, scanning the table from its first row. */
  function AnyUnnamed(sigs: seq<Signatory>): (b: bool)
    ensures b <==> exists i :: 0 <= i < |sigs| && sigs[i].name == ""
  {
    if sigs == [] then false
    else if sigs[0].name == "" then true
    else
      var rest := AnyUnnamed(sigs[1..]);
      assert rest ==> exists i :: 0 <= i < |sigs| && sigs[i].name == "" by {
        if rest {
          var j :| 0 <= j < |sigs| - 1 && sigs[1..][j].name == "";
          assert sigs[j + 1].name == "";
        }
      }
      assert (exists i :: 0 <= i < |sigs| && sigs[i].name == "") ==> rest by {
        if exists i :: 0 <= i < |sigs| && sigs[i].name == "" {
          var i :| 0 <= i < |sigs| && sigs[i].name == "";
          assert i != 0 && sigs[1..][i - 1].name == "";
        }
      }
      rest
  }

  /** Some row has a non-empty name or a non-empty title. */
  function AnyFilled(sigs: seq<Signatory>): (b: bool)
    ensures b <==> exists i :: 0 <= i < |sigs| && (sigs[i].name != "" || sigs[i].title != "")
  {
    if sigs == [] then false
    else if sigs[0].name != "" || sigs[0].title != "" then true
    else
      var rest := AnyFilled(sigs[1..]);
      assert rest ==> exists i :: 0 <= i < |sigs| && (sigs[i].name != "" || sigs[i].title != "") by {
        if rest {
          var j :| 0 <= j < |sigs| - 1 && (sigs[1..][j].name != "" || sigs[1..][j].title != "");
          assert sigs[j + 1] == sigs[1..][j];
        }
      }
      assert (exists i :: 0 <= i < |sigs| && (sigs[i].name != "" || sigs[i].title != "")) ==> rest by {
        if exists i :: 0 <= i < |sigs| && (sigs[i].name != "" || sigs[i].title != "") {
          var i :| 0 <= i < |sigs| && (sigs[i].name != "" || sigs[i].title != "");
          assert i != 0 && sigs[1..][i - 1] == sigs[i];
        }
      }
      rest
  }

  /** The consent step may be left: consent is given and every row carries a name. */
  function ReadyToSubmit(consent: bool, sigs: seq<Signatory>): (b: bool)
    ensures b <==> consent && forall i :: 0 <= i < |sigs| ==> sigs[i].name != ""
  {
    consent && !AnyUnnamed(sigs)
  }

  /** Appending a blank row never makes the table ready: the new row has no name. */
  lemma AppendedBlankNotReady(consent: bool, sigs: seq<Signatory>)
    ensures !ReadyToSubmit(consent, sigs + [Blank])
  {
    assert (sigs + [Blank])[|sigs|].name == "";
  }

  /** Appending a blank row does not change whether anything has been filled in. */
  lemma AppendedBlankFilled(sigs: seq<Signatory>)
    ensures AnyFilled(sigs + [Blank]) == AnyFilled(sigs)
  {
    var t := sigs + [Blank];
    if AnyFilled(t) {
      var i :| 0 <= i < |t| && (t[i].name != "" || t[i].title != "");
      assert i < |sigs| && sigs[i] == t[i];
    }
    if AnyFilled(sigs) {
      var i :| 0 <= i < |sigs| && (sigs[i].name != "" || sigs[i].title != "");
      assert t[i] == sigs[i];
    }
  }
}
