/** The login page's state machine: the identifier step ("login") where a
    phone number or an e-mail address is typed, and the code step ("verify")
    with its six one-character cells edited key by key. The requests are not
    modelled; their answers are parameters. */
module Login {
  import opened Js
  import opened Seqs

  const CELLS: nat := 6

  /** `["", "", "", "", "", ""]`. */
  const EMPTY_OTP: seq<string> := ["", "", "", "", "", ""]

  /** `/^[0-9]$/.test(key)`: exactly one character, a digit. */
  predicate IsDigitKey(key: string) {
    |key| == 1 && IsDigit(key[0])
  }

  /** What a cell may hold under the key handler: nothing or one digit. */
  predicate IsCell(c: string) {
    c == "" || IsDigitKey(c)
  }

  /** `handleOtpKeyDown(e, index)`: the buffer `setOtp` receives, or the same
      buffer when the key is ignored. */
  function OtpAfterKey(otp: seq<string>, index: nat, key: string): (r: seq<string>)
    requires index < |otp|
  {
    if key == "Backspace" then
      if otp[index] != "" then otp[index := ""]
      else if index > 0 then otp[index - 1 := ""]
      else otp
    else if IsDigitKey(key) then otp[index := key]
    else otp
  }

  /** The key rules: a digit fills only its cell; backspace clears its cell
      when that holds something, else the cell before it, and at the first
      empty cell does nothing; every other key is ignored. The buffer keeps
      its length and its cells stay empty or single digits. */
  lemma KeyRules(otp: seq<string>, index: nat, key: string)
    requires index < |otp|
    ensures |OtpAfterKey(otp, index, key)| == |otp|
    ensures IsDigitKey(key) ==> OtpAfterKey(otp, index, key) == otp[index := key]
    ensures key == "Backspace" && otp[index] != "" ==>
              OtpAfterKey(otp, index, key)[index] == "" &&
              forall j :: 0 <= j < |otp| && j != index ==> OtpAfterKey(otp, index, key)[j] == otp[j]
    ensures key == "Backspace" && otp[index] == "" && index > 0 ==>
              OtpAfterKey(otp, index, key)[index - 1] == "" &&
              forall j :: 0 <= j < |otp| && j != index - 1 ==> OtpAfterKey(otp, index, key)[j] == otp[j]
    ensures key == "Backspace" && otp[index] == "" && index == 0 ==> OtpAfterKey(otp, index, key) == otp
    ensures key != "Backspace" && !IsDigitKey(key) ==> OtpAfterKey(otp, index, key) == otp
    ensures (forall j :: 0 <= j < |otp| ==> IsCell(otp[j])) ==>
              forall j :: 0 <= j < |otp| ==> IsCell(OtpAfterKey(otp, index, key)[j])
  {
  }

  /** `otp.join("")`. */
  function Join(cells: seq<string>): (r: string)
    ensures (forall j :: 0 <= j < |cells| ==> |cells[j]| == 1) ==> |r| == |cells|
  {
    if cells == [] then "" else Join(cells[..|cells| - 1]) + cells[|cells| - 1]
  }

  /** One-character cells join to the string of their characters. */
  lemma {:induction false} JoinSingles(cells: seq<string>)
    requires forall j :: 0 <= j < |cells| ==> |cells[j]| == 1
    ensures forall j :: 0 <= j < |cells| ==> Join(cells)[j] == cells[j][0]
  {
    if cells != [] {
      var init := cells[..|cells| - 1];
      JoinSingles(init);
      assert Join(cells) == Join(init) + cells[|cells| - 1];
    }
  }

  /** `verifyOtp`'s check: None (the "complete the code" error) when some cell
      is empty, else the code posted. */
  function OtpCode(otp: seq<string>): Option<string> {
    if exists j :: 0 <= j < |otp| && otp[j] == "" then None else Some(Join(otp))
  }

  /** The code is refused exactly when a cell is empty; from cells the key
      handler filled, it is the six digits in their order. */
  lemma OtpCodeMeaning(otp: seq<string>)
    requires |otp| == CELLS && forall j :: 0 <= j < |otp| ==> IsCell(otp[j])
    ensures OtpCode(otp).None? <==> exists j :: 0 <= j < CELLS && otp[j] == ""
    ensures OtpCode(otp).Some? ==>
              |OtpCode(otp).value| == CELLS &&
              forall j :: 0 <= j < CELLS ==> OtpCode(otp).value[j] == otp[j][0] && IsDigit(OtpCode(otp).value[j])
  {
    if OtpCode(otp).Some? {
      JoinSingles(otp);
    }
  }

  /** The phone field's `replace(/[^0-9]/g, "")`; an e-mail is kept as typed. */
  function Sanitize(kind: string, typed: string): string {
    if kind == "phone" then Filter(typed, IsDigit) else typed
  }

  /** A phone number keeps exactly its digits, in their order, and
      sanitising it again changes nothing. */
  lemma SanitizeKeepsDigits(typed: string, c: char)
    ensures var s := Sanitize("phone", typed);
            (forall j :: 0 <= j < |s| ==> IsDigit(s[j])) &&
            (c in s <==> c in typed && IsDigit(c)) &&
            Subsequence(s, typed) &&
            Sanitize("phone", s) == s
    ensures Sanitize("email", typed) == typed
  {
    FilterMembership(typed, IsDigit, c);
    FilterIsSubsequence(typed, IsDigit);
    FilterKeepsAll(Filter(typed, IsDigit), IsDigit);
  }

  class LoginPage {
    var step: string
    var kind: string
    var value: string
    var otp: seq<string>

    predicate Valid()
      reads this
    {
      |otp| == CELLS && forall j :: 0 <= j < CELLS ==> IsCell(otp[j])
    }

    constructor()
      ensures Valid()
      ensures step == "login" && kind == "phone" && value == "" && otp == EMPTY_OTP
    {
      step := "login";
      kind := "phone";
      value := "";
      otp := EMPTY_OTP;
    }

    /** The two switch buttons: the channel changes and the field empties. */
    method ChooseKind(k: string)
      requires Valid()
      modifies this
      ensures Valid()
      ensures kind == k && value == "" && step == old(step) && otp == old(otp)
    {
      kind := k;
      value := "";
    }

    /** The identifier field's `onChange`. */
    method Type(typed: string)
      requires Valid()
      modifies this
      ensures Valid()
      ensures value == Sanitize(kind, typed) && kind == old(kind) && step == old(step) && otp == old(otp)
    {
      if kind == "phone" {
        value := Filter(typed, IsDigit);
      } else {
        value := typed;
      }
    }

    /** `sendOtp` with `data` the request's answer (null on failure):
        nothing is requested for an empty field, and the code step opens only
        on a truthy answer. */
    method SendOtp(data: Value) returns (requested: bool)
      requires Valid()
      modifies this
      ensures Valid()
      ensures requested <==> old(value) != ""
      ensures step == (if requested && Truthy(data) then "verify" else old(step))
      ensures kind == old(kind) && value == old(value) && otp == old(otp)
    {
      if value == "" {
        return false;
      }
      requested := true;
      if Truthy(data) {
        step := "verify";
      }
    }

    /** `handleOtpKeyDown(e, index)` on one of the six cells: the buffer is
        copied, at most one cell is assigned, and the copy is stored. */
    method KeyDown(index: nat, key: string)
      requires Valid() && index < CELLS
      modifies this
      ensures Valid()
      ensures otp == OtpAfterKey(old(otp), index, key)
      ensures step == old(step) && kind == old(kind) && value == old(value)
    {
      KeyRules(otp, index, key);
      var next := otp;
      if key == "Backspace" {
        if next[index] != "" {
          next := next[index := ""];
          otp := next;
        } else if index > 0 {
          next := next[index - 1 := ""];
          otp := next;
        }
      } else if IsDigitKey(key) {
        next := next[index := key];
        otp := next;
      }
    }

    /** `verifyOtp`'s check: the code it would post, None when a cell is
        empty. */
    method VerifyCode() returns (code: Option<string>)
      requires Valid()
      ensures code.None? <==> exists j :: 0 <= j < CELLS && otp[j] == ""
      ensures code.Some? ==> |code.value| == CELLS && forall j :: 0 <= j < CELLS ==> code.value[j] == otp[j][0]
    {
      OtpCodeMeaning(otp);
      code := OtpCode(otp);
    }

    /** `backToLogin`. */
    method BackToLogin()
      requires Valid()
      modifies this
      ensures Valid()
      ensures step == "login" && value == "" && otp == EMPTY_OTP && kind == old(kind)
    {
      step := "login";
      value := "";
      otp := EMPTY_OTP;
    }
  }
}
