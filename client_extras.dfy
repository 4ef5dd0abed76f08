/** The optional extras a guest can tick on the room and experience pages,
    and the checkbox toggle both pages share. */
module ClientExtras {
  import opened Common

  /** How an extra is charged: `'per_guest'` extras scale with the party,
      any other `type` string is charged once. */
  datatype ExtraKind = PerGuest | Flat

  /** An extra as returned by `/api/extras`; `price` in cents. */
  datatype Extra = Extra(id: int, name: string, price: int, kind: ExtraKind)

  predicate HasId(selected: seq<Extra>, id: int)
  {
    exists i :: 0 <= i < |selected| && selected[i].id == id
  }

  /** The test of the removal filter: the extra does not carry `id`. */
  function Without(id: int): Extra -> bool
  {
    (e: Extra) => e.id != id
  }

  /** `toggleExtra`: drop every selected extra with this id when one is
      selected, otherwise append the extra. */
  function ToggleExtra(selected: seq<Extra>, extra: Extra): (r: seq<Extra>)
    ensures HasId(selected, extra.id) ==> !HasId(r, extra.id)
    ensures HasId(selected, extra.id) ==> forall e :: e in r <==> e in selected && e.id != extra.id
    ensures HasId(selected, extra.id) ==> Embeds(r, selected)
    ensures !HasId(selected, extra.id) ==> r == selected + [extra]
  {
    if HasId(selected, extra.id) then
      var r := Filter(selected, Without(extra.id));
      assert forall i :: 0 <= i < |r| ==> r[i] in r;
      FilterEmbeds(selected, Without(extra.id));
      r
    else selected + [extra]
  }

  /** Ticking an extra that is not selected and then ticking it again gives the
      selection back. */
  lemma ToggleTwiceRestores(selected: seq<Extra>, extra: Extra)
    requires !HasId(selected, extra.id)
    ensures ToggleExtra(ToggleExtra(selected, extra), extra) == selected
  {
    var once := selected + [extra];
    assert once[|once| - 1] == extra;
    FilterKeepsAll(selected, extra.id);
    FilterAppend(selected, [extra], Without(extra.id));
    assert [extra][..0] == [];
  }

  /** Removing an id that no element carries keeps the whole sequence. */
  lemma FilterKeepsAll(selected: seq<Extra>, id: int)
    requires !HasId(selected, id)
    ensures Filter(selected, Without(id)) == selected
  {
    forall i | 0 <= i < |selected| ensures Without(id)(selected[i]) {
      assert selected[i].id != id;
    }
    FilterAll(selected, Without(id));
  }
}
