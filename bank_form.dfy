/** The manual entry form of the simple bot (gui_app.py): four text fields, two buttons and the
    table of rows saved so far. The keystroke bot types into this form. */
module BankForm {
  import opened Wrappers
  import opened Text

  /** The account code the form starts with and returns to after every save. */
  const DefaultAccount: string := "6232011"
  const FillAll: string := "Tüm alanları doldurun"

  /** The table row `kaydet` inserts for the typed texts, or `None` when the date, the
      description or the amount is blank. */
  function Submitted(tarih: string, aciklama: string, tutar: string, hesap: string): (r: Option<seq<string>>)
    ensures r.Some? ==> |r.value| == 4
  {
    var t, a, u, h := Strip(tarih), Strip(aciklama), Strip(tutar), Strip(hesap);
    if t == "" || a == "" || u == "" then None else Some([t, a, u, h])
  }

  /** A save is refused exactly when one of the three required fields holds nothing but
      white space; the account code is never required. */
  lemma SubmittedIff(tarih: string, aciklama: string, tutar: string, hesap: string)
    ensures Submitted(tarih, aciklama, tutar, hesap).None? <==>
      || (forall i :: 0 <= i < |tarih| ==> IsSpace(tarih[i]))
      || (forall i :: 0 <= i < |aciklama| ==> IsSpace(aciklama[i]))
      || (forall i :: 0 <= i < |tutar| ==> IsSpace(tutar[i]))
    ensures Submitted(tarih, aciklama, tutar, hesap).Some? == Submitted(tarih, aciklama, tutar, "").Some?
  {
    StripEmptyIff(tarih);
    StripEmptyIff(aciklama);
    StripEmptyIff(tutar);
  }

  /** The inserted values carry no surrounding white space: submitting the saved row again
      gives the same row. */
  lemma SubmittedStable(tarih: string, aciklama: string, tutar: string, hesap: string)
    requires Submitted(tarih, aciklama, tutar, hesap).Some?
    ensures var r := Submitted(tarih, aciklama, tutar, hesap).value;
      Submitted(r[0], r[1], r[2], r[3]) == Some(r)
  {
    StripIdempotent(tarih);
    StripIdempotent(aciklama);
    StripIdempotent(tutar);
    StripIdempotent(hesap);
  }

  class BankGUI {
    /** The texts of the four entries. */
    var tarih: string
    var aciklama: string
    var tutar: string
    var hesap: string
    /** The rows of the table, each (tarih, açıklama, tutar, hesap). */
    var rows: seq<seq<string>>
    /** Error dialogs shown so far. */
    var errors: seq<string>

    /** The state `temizle` leaves behind. */
    predicate Cleared()
      reads this
    {
      tarih == "" && aciklama == "" && tutar == "" && hesap == DefaultAccount
    }

    constructor ()
      ensures Cleared() && rows == [] && errors == []
    {
      tarih, aciklama, tutar, hesap := "", "", "", DefaultAccount;
      rows, errors := [], [];
    }

    /** `kaydet`: a refused save shows an error and changes nothing else; an accepted one adds
        exactly one row and clears the form. */
    method Kaydet()
      modifies this
      ensures var r := Submitted(old(tarih), old(aciklama), old(tutar), old(hesap));
        if r.None? then
          && tarih == old(tarih) && aciklama == old(aciklama) && tutar == old(tutar) && hesap == old(hesap)
          && rows == old(rows) && errors == old(errors) + [FillAll]
        else
          Cleared() && rows == old(rows) + [r.value] && errors == old(errors)
    {
      var r := Submitted(tarih, aciklama, tutar, hesap);
      if r.None? {
        errors := errors + [FillAll];
        return;
      }
      rows := rows + [r.value];
      Temizle();
    }

    /** `temizle`: the three fields are emptied and the account code is put back. */
    method Temizle()
      modifies this`tarih, this`aciklama, this`tutar, this`hesap
      ensures Cleared()
    {
      tarih, aciklama, tutar := "", "", "";
      hesap := DefaultAccount;
    }
  }
}
