/** The one-time-code page: six single-character cells edited one at a time
    or by paste, a submit that refuses an incomplete code without calling the
    service, and a resend link guarded by a 20-second countdown. */
module Otp {
  import opened Base
  import opened Session
  import Routing

  const CELLS: nat := 6
  const RESEND_SECONDS: nat := 20

  const INVALID_CODE := "Please enter a valid OTP"
  const REJECTED_CODE := "Invalid OTP. Please try again."
  const RESEND_FAILED := "Failed to resend OTP"

  /** The body of the login call: `{ email, otp }`. */
  datatype LoginRequest = LoginRequest(email: string, otp: string)

  /** Six cells of at most one character each. */
  predicate WellFormed(cells: seq<string>) {
    |cells| == CELLS && forall i :: 0 <= i < |cells| ==> |cells[i]| <= 1
  }

  // ------------------------------------------------------------- submit

  /** Everything one submit does besides leaving the cells alone: the login
      request it sends (if any), the session it hands to `login` (if any), the
      page it navigates to (if any) and the error it leaves on screen. */
  datatype SubmitOutcome = SubmitOutcome(
    request: Option<LoginRequest>, login: Option<AuthData>,
    navigate: Option<Routing.Path>, error: Option<string>)

  /** `handleSubmit`: a code whose joined length is not 6 is refused locally;
      otherwise one login call is made and its reply decides the outcome. */
  function Submit(cells: seq<string>, email: string, reply: Reply<AuthResponse>): (o: SubmitOutcome)
    requires WellFormed(cells)
    ensures o.request.None? <==> exists i :: 0 <= i < CELLS && cells[i] == ""
    ensures o.request.None? ==> o == SubmitOutcome(None, None, None, Some(INVALID_CODE))
    ensures o.request.Some? ==> o.request.value.email == email && o.request.value.otp == Concat(cells)
                                && |o.request.value.otp| == CELLS
    ensures o.login.Some? <==> o.request.Some? && reply.Resolved? && Accepted(reply.value)
    ensures o.login.Some? ==> o.login == reply.value.data && o.navigate == Some(Routing.LANDING) && o.error.None?
    ensures o.request.Some? && o.login.None? ==> o.navigate.None? && o.error.Some?
    ensures o.request.Some? && reply.Resolved? && !Accepted(reply.value) ==> o.error == Some(REJECTED_CODE)
    ensures o.request.Some? && reply.Rejected? ==> o.error == Some(Or(reply.error.message, INVALID_CODE))
  {
    ConcatFull(cells);
    var code := Concat(cells);
    if |code| != CELLS then SubmitOutcome(None, None, None, Some(INVALID_CODE))
    else
      var request := Some(LoginRequest(email, code));
      match reply
      case Resolved(response) =>
        if Accepted(response) then SubmitOutcome(request, response.data, Some(Routing.LANDING), None)
        else SubmitOutcome(request, None, None, Some(REJECTED_CODE))
      case Rejected(err) => SubmitOutcome(request, None, None, Some(Or(err.message, INVALID_CODE)))
  }

  // -------------------------------------------------------------- paste

  /** The cells after pasting `text`: its first six characters overwrite the
      first cells, one character each; later cells keep their value. */
  function Pasted(cells: seq<string>, text: string): seq<string>
    requires |cells| == CELLS
  {
    var n := if |text| < CELLS then |text| else CELLS;
    seq(CELLS, i requires 0 <= i < CELLS => if i < n then [text[i]] else cells[i])
  }

  /** Pasting a code of six or more characters fills every cell, and the code
      a submit then sends is exactly the first six pasted characters. */
  lemma PasteFillsCode(cells: seq<string>, text: string)
    requires |cells| == CELLS && |text| >= CELLS
    ensures WellFormed(Pasted(cells, text))
    ensures Concat(Pasted(cells, text)) == text[..CELLS]
  {
    var p := Pasted(cells, text);
    ConcatSingles(p, text[..CELLS]);
  }

  /** Cells holding one character each join to the string of those
      characters. */
  lemma {:induction false} ConcatSingles(cells: seq<string>, s: string)
    requires |cells| == |s| && forall i :: 0 <= i < |s| ==> cells[i] == [s[i]]
    ensures Concat(cells) == s
  {
    if s != [] {
      ConcatSingles(cells[1..], s[1..]);
    }
  }

  /** A browser paste event. The pasted text is in `clipboardData`; a paste
      event has no `clipboard` property, so `clipboard` is None for every
      event the browser dispatches. */
  datatype PasteEvent = PasteEvent(clipboard: Option<string>, clipboardData: string)

  predicate FromBrowser(e: PasteEvent) {
    e.clipboard.None?
  }

  /** `handlePaste` as written reads `e.clipboard.getData('text')`: None
      stands for the TypeError it throws when `clipboard` is undefined, after
      the default paste has already been prevented, so the cells stay as
      they were. */
  function PasteAsWritten(cells: seq<string>, e: PasteEvent): (r: Option<seq<string>>)
    requires |cells| == CELLS
    ensures r.None? <==> FromBrowser(e)
  {
    match e.clipboard
    case None => None
    case Some(text) => Some(Pasted(cells, text))
  }

  /** The paste handler reading `e.clipboardData`, which the page uses. */
  function PasteCorrected(cells: seq<string>, e: PasteEvent): (r: seq<string>)
    requires |cells| == CELLS
    ensures |r| == CELLS
  {
    Pasted(cells, e.clipboardData)
  }

  /** For any real paste of a six-character code the handler as written
      throws and pastes nothing, while the corrected handler fills the cells
      so that the next submit sends exactly the pasted code. */
  lemma PasteAsWrittenDropsCode(cells: seq<string>, e: PasteEvent, email: string, reply: Reply<AuthResponse>)
    requires WellFormed(cells) && FromBrowser(e) && |e.clipboardData| >= CELLS
    ensures PasteAsWritten(cells, e).None?
    ensures WellFormed(PasteCorrected(cells, e))
    ensures Submit(PasteCorrected(cells, e), email, reply).request
            == Some(LoginRequest(email, e.clipboardData[..CELLS]))
  {
    PasteFillsCode(cells, e.clipboardData);
  }

  // ---------------------------------------------------------- countdown

  /** One tick of the resend countdown: down by one while positive. */
  function Tick(t: nat): nat {
    if t > 0 then t - 1 else 0
  }

  /** The countdown after `k` ticks. */
  function Ticks(t: nat, k: nat): nat {
    if k == 0 then t else Ticks(Tick(t), k - 1)
  }

  /** The countdown never goes below zero: after `k` ticks it reads `t - k`,
      or 0 once `k` reaches `t`; so from 20 the resend link appears after
      exactly 20 ticks. */
  lemma {:induction false} TicksCount(t: nat, k: nat)
    ensures Ticks(t, k) == if k >= t then 0 else t - k
    ensures Ticks(t, k) == 0 <==> k >= t
  {
    if k > 0 {
      TicksCount(Tick(t), k - 1);
    }
  }

  // --------------------------------------------------------------- page

  class OtpPage {
    /** `location.state?.email || ''`. */
    const email: string
    var otp: array<string>
    var error: Option<string>
    var loading: bool
    var resendTimer: nat
    var canResend: bool
    /** The cell the page last moved focus to. */
    var focus: nat

    /** Six cells of at most one character, a countdown between 0 and 20 that
        makes the resend link available exactly at 0, and no call in flight
        between two handlers. */
    ghost predicate Valid()
      reads this, otp
    {
      otp.Length == CELLS && WellFormed(otp[..])
      && resendTimer <= RESEND_SECONDS && (canResend <==> resendTimer == 0)
      && focus < CELLS && !loading
    }

    constructor (stateEmail: Option<string>)
      ensures Valid() && fresh(otp)
      ensures email == stateEmail.GetOr("")
      ensures otp[..] == ["", "", "", "", "", ""] && error.None?
      ensures resendTimer == RESEND_SECONDS && !canResend && focus == 0
    {
      email := stateEmail.GetOr("");
      otp := new string[CELLS](_ => "");
      error := None;
      loading := false;
      resendTimer := RESEND_SECONDS;
      canResend := false;
      focus := 0;
      new;
      assert otp[..] == ["", "", "", "", "", ""];
    }

    /** The mount effect: without an email there is nothing to verify, so
        the page sends the user back to the login page. */
    method MissingEmailRedirect() returns (target: Option<Routing.Path>)
      ensures target.Some? <==> email == ""
      ensures target.Some? ==> target.value == Routing.LOGIN
    {
      target := if email == "" then Some(Routing.LOGIN) else None;
    }

    /** `handleChange(index, value)`: a value longer than one character is
        ignored; otherwise only cell `index` changes, the error is cleared,
        and a non-empty value moves focus to the next cell. */
    method HandleChange(index: nat, value: string)
      requires Valid() && index < CELLS
      modifies this, otp
      ensures Valid() && otp == old(otp)
      ensures |value| > 1 ==> otp[..] == old(otp[..]) && error == old(error) && focus == old(focus)
      ensures |value| <= 1 ==> otp[..] == old(otp[..])[index := value] && error.None?
      ensures |value| <= 1 ==> focus == if value != "" && index < CELLS - 1 then index + 1 else old(focus)
      ensures resendTimer == old(resendTimer) && canResend == old(canResend)
    {
      if |value| > 1 {
        return;
      }
      otp[index] := value;
      error := None;
      if value != "" && index < CELLS - 1 {
        focus := index + 1;
      }
    }

    /** `handleKeyDown`: Backspace on an empty cell other than the first moves
        focus back one cell; the cells never change. */
    method HandleKeyDown(index: nat, key: string)
      requires Valid() && index < CELLS
      modifies this`focus
      ensures Valid()
      ensures focus == if key == "Backspace" && otp[index] == "" && index > 0 then index - 1 else old(focus)
    {
      if key == "Backspace" && otp[index] == "" && index > 0 {
        focus := index - 1;
      }
    }

    /** `handlePaste`, reading the pasted text from `e.clipboardData`: the
        first `min(|text|, 6)` cells take its characters, the rest keep
        theirs, and focus goes to the last filled cell. */
    method HandlePaste(e: PasteEvent)
      requires Valid()
      modifies this`focus, otp
      ensures Valid()
      ensures otp[..] == PasteCorrected(old(otp[..]), e)
      ensures e.clipboardData != "" ==> focus == (if |e.clipboardData| < CELLS then |e.clipboardData| - 1 else CELLS - 1)
      ensures e.clipboardData == "" ==> focus == old(focus)
    {
      var text := e.clipboardData;
      var n := if |text| < CELLS then |text| else CELLS;
      ghost var before := otp[..];
      var i := 0;
      while i < n
        invariant 0 <= i <= n
        invariant forall j :: 0 <= j < i ==> otp[j] == [text[j]]
        invariant forall j :: i <= j < CELLS ==> otp[j] == before[j]
        invariant focus == old(focus)
      {
        otp[i] := [text[i]];
        i := i + 1;
      }
      assert otp[..] == Pasted(before, text);
      if n > 0 {
        focus := n - 1;
      }
    }

    /** `handleSubmit`: the cells never change; everything else follows
        `Submit`, and the loading flag is down again afterwards. */
    method HandleSubmit(reply: Reply<AuthResponse>)
      returns (request: Option<LoginRequest>, login: Option<AuthData>, navigate: Option<Routing.Path>)
      requires Valid()
      modifies this`error, this`loading
      ensures Valid()
      ensures var o := Submit(otp[..], email, reply);
              request == o.request && login == o.login && navigate == o.navigate && error == o.error
    {
      ConcatFull(otp[..]);
      var code := JoinCells();
      if |code| != CELLS {
        error := Some(INVALID_CODE);
        return None, None, None;
      }
      loading := true;
      error := None;
      request := Some(LoginRequest(email, code));
      login, navigate := None, None;
      match reply {
        case Resolved(response) =>
          if Accepted(response) {
            login, navigate := response.data, Some(Routing.LANDING);
          } else {
            error := Some(REJECTED_CODE);
          }
        case Rejected(err) =>
          error := Some(Or(err.message, INVALID_CODE));
      }
      loading := false;
    }

    /** `otp.join('')`. */
    method JoinCells() returns (code: string)
      requires otp.Length == CELLS
      ensures code == Concat(otp[..])
    {
      code := "";
      var i := CELLS;
      while i > 0
        invariant 0 <= i <= CELLS
        invariant code == Concat(otp[i..])
      {
        i := i - 1;
        assert otp[i..][1..] == otp[i + 1..];
        code := otp[i] + code;
      }
      assert otp[0..] == otp[..];
    }

    /** One second of the countdown effect: down by one while positive, and
        the resend link becomes available when it reaches 0. */
    method OnTick()
      requires Valid()
      modifies this`resendTimer, this`canResend
      ensures Valid()
      ensures resendTimer == Tick(old(resendTimer))
      ensures canResend <==> resendTimer == 0
    {
      if resendTimer > 0 {
        resendTimer := resendTimer - 1;
      }
      if resendTimer == 0 {
        canResend := true;
      }
    }

    /** `handleResend`: nothing happens while the countdown runs. Otherwise
        one OTP request is made; on success the cells are cleared and the
        countdown restarts from 20, on failure only the error changes. */
    method HandleResend(reply: Reply<()>) returns (requested: bool)
      requires Valid()
      modifies this`error, this`resendTimer, this`canResend, this`otp
      ensures Valid()
      ensures requested == old(canResend)
      ensures !requested ==> error == old(error) && otp == old(otp) && otp[..] == old(otp[..]) && resendTimer == old(resendTimer)
      ensures requested && reply.Resolved? ==>
        fresh(otp) && otp[..] == ["", "", "", "", "", ""] && resendTimer == RESEND_SECONDS && !canResend && error.None?
      ensures requested && reply.Rejected? ==>
        otp == old(otp) && otp[..] == old(otp[..]) && resendTimer == old(resendTimer) && canResend == old(canResend)
        && error == Some(Or(reply.error.message, RESEND_FAILED))
    {
      requested := canResend;
      if !canResend {
        return;
      }
      error := None;
      match reply {
        case Resolved(_) =>
          resendTimer := RESEND_SECONDS;
          canResend := false;
          otp := new string[CELLS](_ => "");
          assert otp[..] == ["", "", "", "", "", ""];
        case Rejected(err) =>
          error := Some(Or(err.message, RESEND_FAILED));
      }
    }
  }
}
