/** The admin positions list: loading it, adding a position with a non-blank name, and the
    "ID-" label of each row (src/pages/admin/Positions.jsx). */
module Positions {
  import opened Common
  import opened Text

  /** `"ID-" + p.id.toString().padStart(3, '0')` */
  function IdLabel(id: int): string {
    "ID-" + PadStart(IntToString(id), 3, '0')
  }

  /** For a non-negative id the label is "ID-" and at least three digits that read back
      as the id; ids of three or more digits appear as they are, shorter ones are padded
      with zeros to three. */
  lemma IdLabelShape(id: nat)
    ensures var r := IdLabel(id);
      && r[..3] == "ID-"
      && |r| == 3 + Max(|NatToDecimal(id)|, 3)
      && AllDigits(r[3..]) && DecimalValue(r[3..]) == id
      && (id >= 100 ==> r == "ID-" + NatToDecimal(id))
      && (id < 10 ==> r == "ID-00" + NatToDecimal(id))
      && (10 <= id < 100 ==> r == "ID-0" + NatToDecimal(id))
  {
    var s := NatToDecimal(id);
    var r := IdLabel(id);
    var p := PadStart(s, 3, '0');
    assert r == "ID-" + p;
    assert r[3..] == p;
    DecimalLength(id);
    DecimalRoundTrip(id);
    if id < 10 {
      assert Repeat('0', 2) == "00";
      assert p == "00" + s;
      LeadingZero(s);
      LeadingZero("0" + s);
      assert "0" + ("0" + s) == "00" + s;
    } else if id < 100 {
      assert Repeat('0', 1) == "0";
      assert p == "0" + s;
      LeadingZero(s);
    } else {
      assert p == s;
    }
  }

  /** The add button: not while submitting, nor with a blank name. */
  predicate AddEnabled(name: string, isSubmitting: bool) {
    !isSubmitting && Trim(name) != []
  }

  /** A name counts as blank exactly when it is whitespace only. */
  lemma AddEnabledIff(name: string, isSubmitting: bool)
    ensures AddEnabled(name, isSubmitting) <==> !isSubmitting && !AllWhitespace(name)
  {
    TrimEmptyIffBlank(name);
  }

  class PositionsPage {
    var positions: seq<Position>
    var name: string
    var loading: bool
    var isSubmitting: bool

    /** Mounting the page: the effect starts a load at once. */
    constructor ()
      ensures positions == [] && name == "" && loading && !isSubmitting
    {
      positions := [];
      name := "";
      loading := true;
      isSubmitting := false;
    }

    method EditName(text: string)
      modifies this
      ensures name == text
      ensures positions == old(positions) && loading == old(loading) && isSubmitting == old(isSubmitting)
    {
      name := text;
    }

    /** load up to its await. */
    method BeginLoad()
      modifies this
      ensures loading
      ensures positions == old(positions) && name == old(name) && isSubmitting == old(isSubmitting)
    {
      loading := true;
    }

    /** The positions request settles: the list is replaced on success and kept on
        failure; loading ends either way. */
    method LoadSettled(response: Response<seq<Position>>)
      modifies this
      ensures !loading
      ensures positions == (if response.Ok? then response.data else old(positions))
      ensures name == old(name) && isSubmitting == old(isSubmitting)
    {
      if response.Ok? {
        positions := response.data;
      }
      loading := false;
    }

    /** add up to its await, reached through the enabled button: a blank name does
        nothing; otherwise the page starts submitting and posts the name as typed. */
    method BeginAdd() returns (request: Option<string>)
      modifies this
      ensures request.Some? <==> AddEnabled(old(name), old(isSubmitting))
      ensures request.Some? ==> request.value == name && isSubmitting
      ensures request.None? ==> isSubmitting == old(isSubmitting)
      ensures positions == old(positions) && name == old(name) && loading == old(loading)
    {
      if isSubmitting {
        return None;
      }
      if Trim(name) == [] {
        return None;
      }
      isSubmitting := true;
      request := Some(name);
    }

    /** The post settles. On success the name is cleared and a reload starts; a failure is
        only logged. Submitting ends either way. */
    method FinishAdd(ok: bool) returns (reload: bool)
      modifies this
      ensures !isSubmitting
      ensures reload == ok
      ensures ok ==> name == "" && loading
      ensures !ok ==> name == old(name) && loading == old(loading)
      ensures positions == old(positions)
    {
      reload := false;
      if ok {
        name := "";
        BeginLoad();
        reload := true;
      }
      isSubmitting := false;
    }
  }
}
