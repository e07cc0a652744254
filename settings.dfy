/**
 * The settings screen: the account-deletion dialog (its visibility, its text field
 * and the confirmation word) and the logout button. `DeleteLoggedInAccount` is an
 * outside callee: the screen only counts how often it is invoked.
 */
module Settings {
  import opened JsStrings
  import opened Platform
  import opened Auth

  /** The typed text, lower-cased, is the word delete, bare or in double quotes. */
  predicate ConfirmsDeletion(text: string) {
    ToLowerCase(text) in ["delete", "\"delete\""]
  }

  class SettingsScreen {
    var showAccountDelete: bool
    var accDeleteVal: string
    /** How many times `DeleteLoggedInAccount` has been invoked. */
    var deletions: nat

    constructor ()
      ensures !showAccountDelete && accDeleteVal == "" && deletions == 0
    {
      showAccountDelete := false;
      accDeleteVal := "";
      deletions := 0;
    }

    /** `handleCancel` (Cancel and a backdrop press): hide the dialog. */
    method HandleCancel()
      modifies this
      ensures !showAccountDelete && accDeleteVal == old(accDeleteVal) && deletions == old(deletions)
    {
      showAccountDelete := false;
    }

    /** The Delete Account button: show the dialog. */
    method ShowDelete()
      modifies this
      ensures showAccountDelete && accDeleteVal == old(accDeleteVal) && deletions == old(deletions)
    {
      showAccountDelete := true;
    }

    /** The dialog's input: its text becomes `accDeleteVal`. */
    method ChangeText(text: string)
      modifies this
      ensures accDeleteVal == text && showAccountDelete == old(showAccountDelete) && deletions == old(deletions)
    {
      accDeleteVal := text;
    }

    /** `deleteAcc`: invoke the deletion exactly when the text confirms it; the dialog and text stay. */
    method DeleteAcc()
      modifies this
      ensures deletions == old(deletions) + (if ConfirmsDeletion(old(accDeleteVal)) then 1 else 0)
      ensures showAccountDelete == old(showAccountDelete) && accDeleteVal == old(accDeleteVal)
    {
      if ConfirmsDeletion(accDeleteVal) {
        deletions := deletions + 1;
      }
    }

    /** The Logout button. */
    method PressLogout(s: Services)
      modifies s
      ensures s.State() == LogoutW(old(s.State()))
    {
      Logout(s);
    }
  }

  // ---------------------------------------------------------------- properties

  /** The word is 'delete', bare or in double quotes, in any ASCII letter case. */
  lemma ConfirmsAnyCase()
    ensures ConfirmsDeletion("Delete") && ConfirmsDeletion("\"DELETE\"")
  {
    var a := ToLowerCase("Delete");
    assert a[0] == 'd' && a[1] == 'e' && a[2] == 'l' && a[3] == 'e' && a[4] == 't' && a[5] == 'e';
    assert a == "delete";
    var b := ToLowerCase("\"DELETE\"");
    assert b[0] == '"' && b[1] == 'd' && b[2] == 'e' && b[3] == 'l' && b[4] == 'e' && b[5] == 't' && b[6] == 'e' && b[7] == '"';
    assert b == "\"delete\"";
  }

  /** Other texts, such as single quotes or trailing punctuation, do not confirm. */
  lemma OtherTextsDoNotConfirm()
    ensures !ConfirmsDeletion("delete!") && !ConfirmsDeletion("") && !ConfirmsDeletion("'delete'")
  {
    assert |ToLowerCase("delete!")| == 7;
    assert ToLowerCase("'delete'")[0] == '\'';
  }

  /** Nothing is trimmed: a leading or trailing space never confirms. */
  lemma NoTrimming(text: string)
    ensures !ConfirmsDeletion(" " + text) && !ConfirmsDeletion(text + " ")
  {
    var a, b := ToLowerCase(" " + text), ToLowerCase(text + " ");
    assert a[0] == ' ';
    assert b[|b| - 1] == ' ';
  }

  /** A confirming text has exactly the letters of 'delete', with or without the quotes. */
  lemma ConfirmingTexts(text: string)
    requires ConfirmsDeletion(text)
    ensures |text| == 6 || |text| == 8
    ensures |text| == 6 ==> forall i :: 0 <= i < 6 ==> LowerChar(text[i]) == "delete"[i]
    ensures |text| == 8 ==> text[0] == '"' && text[7] == '"' && forall i :: 1 <= i < 7 ==> LowerChar(text[i]) == "delete"[i - 1]
  {
    var t := ToLowerCase(text);
    if |text| == 8 {
      assert t == "\"delete\"";
      assert LowerChar(text[0]) == '"' && LowerChar(text[7]) == '"';
    }
  }
}
