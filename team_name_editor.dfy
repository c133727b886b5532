/**
 * The `TeamNameEditor` dialog: editing the two team names of a match,
 * saving them with a `PATCH` request after a trimmed-non-empty check, and
 * cancelling back to the match's names. The request is an abstract
 * `FetchOutcome` argument; the `onSave` / `onClose` callbacks, the state
 * setters and the request are appended, in order, to `events`.
 */
module TeamNameEditor {
  import opened Wrappers
  import opened JsString
  import opened ApiConfig
  import opened Http

  const RequiredMessage: string := "Both team names are required"
  const UpdateFailedMessage: string := "Failed to update team names"
  const NetworkErrorMessage: string := "Network error occurred"

  /** The match being edited, as passed in by the caller. */
  datatype Match = Match(id: string, homeTeam: string, awayTeam: string)

  /** `PATCH /api/match/{id}/teams` with the JSON body `{homeTeam, awayTeam}`. */
  datatype TeamsRequest = TeamsRequest(url: string, homeTeam: string, awayTeam: string)

  /** One observable effect of the dialog. */
  datatype Event =
    | SavingSet(saving: bool)          // setIsSaving(...)
    | ErrorShown(message: string)      // setError(...)
    | Patched(request: TeamsRequest)   // fetch(...)
    | SaveCalled                       // onSave()
    | CloseCalled                      // onClose()

  /** Both names are non-empty once trimmed. */
  predicate NamesFilled(home: string, away: string) {
    Trim(home) != "" && Trim(away) != ""
  }

  /** A name passes the check exactly when it holds a non-whitespace character. */
  lemma NamesFilledIff(home: string, away: string)
    ensures NamesFilled(home, away) <==> !AllSpace(home) && !AllSpace(away)
  {
  }



  /**
   * `t` is what remains of `name` once all whitespace is cut from both ends:
   * a non-empty infix with no whitespace at either end and only whitespace
   * outside it.
   */
  predicate TrimmedFrom(name: string, t: string) {
    && t != "" && !IsJsSpace(t[0]) && !IsJsSpace(t[|t| - 1])
    && exists i, j :: 0 <= i <= j <= |name| && t == name[i..j] && AllSpace(name[..i]) && AllSpace(name[j..])
  }

  /** A name that passes the check is sent trimmed. */
  lemma TrimmedName(name: string)
    requires Trim(name) != ""
    ensures TrimmedFrom(name, Trim(name))
  {
    var i, j := TrimIsInfix(name);
  }

  /** Conversely, `TrimmedFrom` admits nothing but the trim itself. */
  lemma TrimmedFromIsTrim(name: string, t: string)
    requires TrimmedFrom(name, t)
    ensures t == Trim(name)
  {
    var i, j :| 0 <= i <= j <= |name| && t == name[i..j] && AllSpace(name[..i]) && AllSpace(name[j..]);
    TrimOfCut(name, t, i, j);
  }

  /** Cutting exactly the surrounding whitespace is trimming. */
  lemma TrimOfCut(name: string, t: string, i: nat, j: nat)
    requires i <= j <= |name| && t == name[i..j] && AllSpace(name[..i]) && AllSpace(name[j..])
    requires t != "" && !IsJsSpace(t[0]) && !IsJsSpace(t[|t| - 1])
    ensures t == Trim(name)
  {
    assert t[0] == name[i] && t[|t| - 1] == name[j - 1];
    var b := TrimBounds(name);
    assert !AllSpace(name);
    TrimStartIsFirst(name, i, b.0);
    TrimEndIsLast(name, j, b.1);
  }

  /** A cut with only whitespace before it and non-whitespace at it is the trim's start. */
  lemma TrimStartIsFirst(name: string, i: nat, start: nat)
    requires i < |name| && AllSpace(name[..i]) && !IsJsSpace(name[i])
    requires start < |name| && !IsJsSpace(name[start])
    requires forall k :: 0 <= k < start ==> IsJsSpace(name[k])
    ensures i == start
  {
  }

  /** A cut with only whitespace after it and non-whitespace before it is the trim's end. */
  lemma TrimEndIsLast(name: string, j: nat, stop: nat)
    requires 0 < j <= |name| && AllSpace(name[j..]) && !IsJsSpace(name[j - 1])
    requires 0 < stop <= |name| && !IsJsSpace(name[stop - 1])
    requires forall k :: stop <= k < |name| ==> IsJsSpace(name[k])
    ensures j == stop
  {
  }

  /**
   * The request a save sends for `m` with the names as edited: the trimmed
   * names, to the match's `/teams` address under the base.
   */
  function TeamsRequestFor(base: string, m: Match, home: string, away: string): (r: TeamsRequest)
    ensures r.homeTeam == Trim(home) && r.awayTeam == Trim(away)
    ensures r.url == BuildApiUrl(base, "/api/match/" + m.id + "/teams")
    ensures StartsWith(r.url, base) && EndsWith(r.url, "/api/match/" + m.id + "/teams") && EndsWith(r.url, "/teams")
  {
    TeamsUrlShape(base, m);
    TeamsRequest(BuildApiUrl(base, "/api/match/" + m.id + "/teams"), Trim(home), Trim(away))
  }

  /** The save URL is the base followed by the match's own `/api/match/<id>/teams` path. */
  lemma TeamsUrlShape(base: string, m: Match)
    ensures var url := BuildApiUrl(base, "/api/match/" + m.id + "/teams");
            StartsWith(url, base) && EndsWith(url, "/api/match/" + m.id + "/teams") && EndsWith(url, "/teams")
  {
    var p := "/api/match/" + m.id;
    var e := p + "/teams";
    BuildApiUrlShape(base, e);
    assert e[|e| - |"/teams"|..] == "/teams";
    EndsWithOfEndsWith(BuildApiUrl(base, e), e, "/teams");
  }

  /**
   * The request carries the trimmed names: each is the part of the edited
   * name between leading and trailing whitespace, non-empty once the check
   * has passed, and the URL is built against the base.
   */
  lemma RequestCarriesTrimmedNames(base: string, m: Match, home: string, away: string)
    requires NamesFilled(home, away)
    ensures var r := TeamsRequestFor(base, m, home, away);
            && TrimmedFrom(home, r.homeTeam) && TrimmedFrom(away, r.awayTeam)
            && StartsWith(r.url, base) && EndsWith(r.url, "/teams")
  {
    TrimmedName(home);
    TrimmedName(away);
  }

  /** The error the dialog shows after the request: empty exactly on a 2xx response. */
  function SaveError(o: FetchOutcome): (message: string)
    ensures message == "" <==> o.Responded? && IsOk(o.status)
    ensures o.Rejected? ==> message == NetworkErrorMessage
    ensures o.Responded? && !IsOk(o.status) && (o.body.Unparsable? || o.body == Parsed(JNull)) ==> message == NetworkErrorMessage
    ensures o.Responded? && !IsOk(o.status) && o.body.Parsed? && o.body.value != JNull ==>
              message == if HasErrorText(o.body.value) then o.body.value.fields["error"].s else UpdateFailedMessage
  {
    match o
    case Rejected(_) => NetworkErrorMessage
    case Responded(status, _, body) =>
      if IsOk(status) then ""
      else
        match body
        case Unparsable(_) => NetworkErrorMessage
        case Parsed(data) =>
          match ErrorOr(data, UpdateFailedMessage)
          case Success(text) => text
          case Failure(_) => NetworkErrorMessage
  }

  /** The effects of `handleSave()`, appended to `before`. */
  function SaveTrace(before: seq<Event>, base: string, m: Match, home: string, away: string, o: FetchOutcome): seq<Event> {
    if !NamesFilled(home, away) then before + [ErrorShown(RequiredMessage)]
    else SubmitTrace(before, TeamsRequestFor(base, m, home, away), o)
  }

  /** The effects of `handleSave()` once the check has passed and `req` is the request. */
  function SubmitTrace(before: seq<Event>, req: TeamsRequest, o: FetchOutcome): seq<Event> {
    before + [SavingSet(true)] + [ErrorShown("")] + [Patched(req)] + AfterRequest(o) + [SavingSet(false)]
  }

  /** The effects between the request and the end of `handleSave()`. */
  function AfterRequest(o: FetchOutcome): seq<Event> {
    if o.Responded? && IsOk(o.status) then [SaveCalled] + [CloseCalled] else [ErrorShown(SaveError(o))]
  }

  /** Where each part of a submitted save sits in the trace. */
  lemma SubmitTraceShape(before: seq<Event>, req: TeamsRequest, o: FetchOutcome)
    ensures var evs := SubmitTrace(before, req, o);
            var n := |before|;
            var mid := AfterRequest(o);
            && |evs| == n + 4 + |mid| && evs[..n] == before
            && evs[n] == SavingSet(true) && evs[n + 1] == ErrorShown("") && evs[n + 2] == Patched(req)
            && (forall k :: 0 <= k < |mid| ==> evs[n + 3 + k] == mid[k])
            && evs[|evs| - 1] == SavingSet(false)
  {
    var head := before + [SavingSet(true)] + [ErrorShown("")] + [Patched(req)];
    var evs := SubmitTrace(before, req, o);
    assert evs == head + AfterRequest(o) + [SavingSet(false)];
    assert evs[..|before|] == before;
  }

  /** A failed check shows the message and sends nothing. */
  lemma SaveRejectsBlankNames(before: seq<Event>, base: string, m: Match, home: string, away: string, o: FetchOutcome)
    requires !NamesFilled(home, away)
    ensures var evs := SaveTrace(before, base, m, home, away, o);
            && |evs| == |before| + 1 && evs[..|before|] == before
            && evs[|before|] == ErrorShown(RequiredMessage)
  {
    var evs := SaveTrace(before, base, m, home, away, o);
    assert evs[..|before|] == before;
  }

  /**
   * A save that passes the check sets the busy flag and clears the error
   * before the request, and ends by clearing the busy flag.
   */
  lemma SaveBracketsRequest(before: seq<Event>, base: string, m: Match, home: string, away: string, o: FetchOutcome)
    requires NamesFilled(home, away)
    ensures var evs := SaveTrace(before, base, m, home, away, o);
            var n := |before|;
            && |evs| >= n + 5 && evs[..n] == before
            && evs[n] == SavingSet(true) && evs[n + 1] == ErrorShown("")
            && evs[n + 2] == Patched(TeamsRequestFor(base, m, home, away))
            && evs[|evs| - 1] == SavingSet(false)
  {
    SubmitTraceShape(before, TeamsRequestFor(base, m, home, away), o);
  }

  /**
   * After the request: a 2xx response calls `onSave` and then `onClose`
   * and leaves the error cleared; anything else shows `SaveError(o)` and
   * calls neither. (`SaveTrace` is `SubmitTrace` once the check passes.)
   */
  lemma SaveOutcome(before: seq<Event>, req: TeamsRequest, o: FetchOutcome)
    ensures var evs := SubmitTrace(before, req, o);
            var n := |before|;
            if o.Responded? && IsOk(o.status) then
              |evs| == n + 6 && evs[n + 3] == SaveCalled && evs[n + 4] == CloseCalled
            else
              |evs| == n + 5 && evs[n + 3] == ErrorShown(SaveError(o)) && SaveError(o) != ""
  {
    var evs := SubmitTrace(before, req, o);
    var n := |before|;
    SubmitTraceShape(before, req, o);
    if o.Responded? && IsOk(o.status) {
      assert AfterRequest(o) == [SaveCalled, CloseCalled];
      assert evs[n + 3 + 0] == SaveCalled;
      assert evs[n + 3 + 1] == CloseCalled;
    } else {
      assert AfterRequest(o) == [ErrorShown(SaveError(o))];
      assert evs[n + 3 + 0] == ErrorShown(SaveError(o));
    }
  }

  /** One open dialog for the match `original`. */
  class TeamNameEditor {
    const baseUrl: string
    const original: Match
    var homeTeam: string
    var awayTeam: string
    var isSaving: bool
    var error: string
    var events: seq<Event>

    constructor(baseUrl: string, m: Match)
      ensures this.baseUrl == baseUrl && original == m
      ensures homeTeam == m.homeTeam && awayTeam == m.awayTeam
      ensures !isSaving && error == "" && events == []
    {
      this.baseUrl := baseUrl;
      original := m;
      homeTeam := m.homeTeam;
      awayTeam := m.awayTeam;
      isSaving := false;
      error := "";
      events := [];
    }

    /** Typing into the home-team field. */
    method EditHomeTeam(value: string)
      modifies this
      ensures homeTeam == value
      ensures awayTeam == old(awayTeam) && isSaving == old(isSaving) && error == old(error) && events == old(events)
    {
      homeTeam := value;
    }

    /** Typing into the away-team field. */
    method EditAwayTeam(value: string)
      modifies this
      ensures awayTeam == value
      ensures homeTeam == old(homeTeam) && isSaving == old(isSaving) && error == old(error) && events == old(events)
    {
      awayTeam := value;
    }

    /** `handleSave()`, where the request yields `outcome`. */
    method HandleSave(outcome: FetchOutcome)
      modifies this
      ensures events == SaveTrace(old(events), baseUrl, original, old(homeTeam), old(awayTeam), outcome)
      ensures homeTeam == old(homeTeam) && awayTeam == old(awayTeam)
      ensures !NamesFilled(homeTeam, awayTeam) ==> error == RequiredMessage && isSaving == old(isSaving)
      ensures NamesFilled(homeTeam, awayTeam) ==> error == SaveError(outcome) && !isSaving
    {
      if Trim(homeTeam) == "" || Trim(awayTeam) == "" {
        error := RequiredMessage;
        events := events + [ErrorShown(error)];
      } else {
        Submit(TeamsRequestFor(baseUrl, original, homeTeam, awayTeam), outcome);
      }
    }

    /** The body of `handleSave()` once both names have passed the check and `request` is built. */
    method Submit(request: TeamsRequest, outcome: FetchOutcome)
      modifies this
      ensures events == SubmitTrace(old(events), request, outcome)
      ensures homeTeam == old(homeTeam) && awayTeam == old(awayTeam)
      ensures error == SaveError(outcome) && !isSaving
    {
      ghost var head := events + [SavingSet(true)] + [ErrorShown("")] + [Patched(request)];
      isSaving := true;
      events := events + [SavingSet(true)];
      error := "";
      events := events + [ErrorShown("")];
      events := events + [Patched(request)];
      assert events == head;
      HandleResponse(outcome);
      isSaving := false;
      events := events + [SavingSet(false)];
    }

    /** The part of `handleSave()` after the request: the response, or the thrown value. */
    method HandleResponse(outcome: FetchOutcome)
      modifies this
      ensures events == old(events) + AfterRequest(outcome)
      ensures error == if outcome.Responded? && IsOk(outcome.status) then old(error) else SaveError(outcome)
      ensures homeTeam == old(homeTeam) && awayTeam == old(awayTeam) && isSaving == old(isSaving)
    {
      match outcome {
        case Rejected(_) =>
          error := NetworkErrorMessage;
          events := events + [ErrorShown(error)];
        case Responded(status, _, body) =>
          if IsOk(status) {
            SaveThenClose();
          } else {
            if body.Unparsable? {
              // `response.json()` throws
              error := NetworkErrorMessage;
            } else {
              var text := ErrorOr(body.value, UpdateFailedMessage);
              error := if text.Success? then text.value else NetworkErrorMessage;
            }
            events := events + [ErrorShown(error)];
          }
      }
    }

    /** `onSave(); onClose();` */
    method SaveThenClose()
      modifies this
      ensures events == old(events) + ([SaveCalled] + [CloseCalled])
      ensures homeTeam == old(homeTeam) && awayTeam == old(awayTeam) && isSaving == old(isSaving) && error == old(error)
    {
      events := events + [SaveCalled];
      events := events + [CloseCalled];
    }

    /** `handleCancel()` */
    method HandleCancel()
      modifies this
      ensures homeTeam == original.homeTeam && awayTeam == original.awayTeam
      ensures error == "" && isSaving == old(isSaving)
      ensures events == old(events) + [ErrorShown("")] + [CloseCalled]
    {
      homeTeam := original.homeTeam;
      awayTeam := original.awayTeam;
      error := "";
      events := events + [ErrorShown("")];
      events := events + [CloseCalled];
    }
  }
}
