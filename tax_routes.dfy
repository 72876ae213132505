/**
 * The decision logic of routes/taxRoutes.js: the tax calculation behind
 * GET /calculate (the handler's own copy of the formula), the ownership and
 * admin rules guarding the tax-return and document routes, and the list of
 * filing deadlines. Database calls, file access and the Express response
 * objects are not modelled; each handler is reduced to the outcome it
 * reaches before any of them.
 */
module TaxRoutes {
  import opened Wrappers
  import opened TaxCalculator
  import opened DecimalText

  // ---------------------------------------------------------------------
  // GET /calculate

  /** The query string, parameter name to value as `Number(...)` reads it. */
  type Query = map<string, Amount>

  /** A parameter missing from the query reads as undefined. */
  function Param(q: Query, name: string): Amount
  {
    if name in q then q[name] else Absent
  }

  datatype CalculateResponse = CalculateResponse(status: int, success: bool, data: TaxResult)

  /**
   * The handler's copy of the formula, step by step as it is written there,
   * with its own constants. It equals the calculator utility on every input.
   */
  function RouteCalculation(income: Amount, deductions: Amount, taxCredits: Amount): (r: TaxResult)
    ensures r == CalculateTax(income, deductions, taxCredits)
  {
    var grossIncome := if income.Num? then income.value else 0.0;
    var totalDeductions := if deductions.Num? then deductions.value else 0.0;
    var totalTaxCredits := if taxCredits.Num? then taxCredits.value else 0.0;
    RouteScheduleFollowsSchedule(grossIncome, totalDeductions, totalTaxCredits);
    CalculateTaxFollowsSchedule(income, deductions, taxCredits);
    ScheduleDetermines(RouteSchedule(grossIncome, totalDeductions, totalTaxCredits),
                       CalculateTax(income, deductions, taxCredits), totalDeductions);
    RouteSchedule(grossIncome, totalDeductions, totalTaxCredits)
  }

  /** The handler's computation once its three inputs are numbers. */
  function RouteSchedule(grossIncome: real, totalDeductions: real, totalTaxCredits: real): TaxResult
  {
    var taxableIncome := if grossIncome - totalDeductions > 0.0 then grossIncome - totalDeductions else 0.0;
    var standardRateCutoff := 36800.0;
    var taxAtStandardRate := if taxableIncome <= standardRateCutoff then taxableIncome * 0.2 else standardRateCutoff * 0.2;
    var taxAtHigherRate := if taxableIncome <= standardRateCutoff then 0.0 else (taxableIncome - standardRateCutoff) * 0.4;
    var grossTax := taxAtStandardRate + taxAtHigherRate;
    var netTax := if grossTax - totalTaxCredits > 0.0 then grossTax - totalTaxCredits else 0.0;
    var usc :=
      if grossIncome > 13000.0 then
        if grossIncome <= 22920.0 then grossIncome * 0.02
        else 22920.0 * 0.02 + (grossIncome - 22920.0) * 0.045
      else 0.0;
    var prsi := if grossIncome > 18304.0 then grossIncome * 0.04 else 0.0;
    var totalTaxLiability := netTax + usc + prsi;
    var netIncome := grossIncome - totalTaxLiability;
    var effectiveTaxRate := if grossIncome > 0.0 then (totalTaxLiability / grossIncome) * 100.0 else 0.0;
    TaxResult(grossIncome, taxableIncome, taxAtStandardRate, taxAtHigherRate, grossTax,
              totalTaxCredits, netTax, usc, prsi, totalTaxLiability, netIncome,
              effectiveTaxRate)
  }

  /** The handler's computation follows the schedule and echoes its income and credits. */
  lemma RouteScheduleFollowsSchedule(gross: real, deductions: real, credits: real)
    ensures FollowsSchedule(RouteSchedule(gross, deductions, credits), deductions)
    ensures RouteSchedule(gross, deductions, credits).grossIncome == gross
    ensures RouteSchedule(gross, deductions, credits).taxCredits == credits
  {
  }

  /**
   * GET /calculate: always 200 with success, the data being the calculator's
   * result for the three query parameters; the echoed credits are the
   * normalised value, not the raw parameter.
   */
  function Calculate(q: Query): (resp: CalculateResponse)
    ensures resp.status == 200 && resp.success
    ensures resp.data == CalculateTax(Param(q, "income"), Param(q, "deductions"), Param(q, "taxCredits"))
    ensures resp.data.taxCredits == NumberOrZero(Param(q, "taxCredits"))
    ensures resp.data.grossIncome == NumberOrZero(Param(q, "income"))
  {
    var data := RouteCalculation(Param(q, "income"), Param(q, "deductions"), Param(q, "taxCredits"));
    CalculateTaxConsistent(Param(q, "income"), Param(q, "deductions"), Param(q, "taxCredits"));
    CalculateResponse(200, true, data)
  }

  // ---------------------------------------------------------------------
  // Ownership and admin rules

  /** The authenticated user object a request carries (`req.user`). */
  datatype Principal = Principal(role: Option<string>)

  /**
   * What a request carries about its sender: `req.userId` and `req.user`,
   * either of which may be undefined.
   */
  datatype Requester = Requester(userId: Option<string>, user: Option<Principal>)

  /**
   * How a guarded handler ends before its database or file work.
   * ServerError is the 500 the error handler sends when the guard itself
   * throws, by reading a property of an undefined `req.userId` or `req.user`.
   */
  datatype Outcome = Allowed | NotFound | Forbidden | ServerError
  {
    function Status(): int
    {
      match this
      case Allowed => 200
      case NotFound => 404
      case Forbidden => 403
      case ServerError => 500
    }
  }

  predicate IsAdmin(p: Principal) { p.role == Some("admin") }

  /** A requester with an id who is the given user, or whose user object is an admin's. */
  predicate MayAccess(req: Requester, owner: string)
  {
    req.userId.Some? && (req.userId.value == owner || (req.user.Some? && IsAdmin(req.user.value)))
  }

  /**
   * The rule of the owner-or-admin guards on a looked-up record, over every
   * request: 404 exactly when the record is missing; allowed exactly when it
   * exists and the requester may access it; 403 exactly when it exists, the
   * requester is neither its owner nor an admin, and both `req.userId` and
   * `req.user` are present to be compared; 500 in the remaining cases, where
   * the guard reads a property of an undefined value.
   */
  predicate OwnerOrAdminRule(o: Outcome, req: Requester, owner: Option<string>)
  {
    && (o == NotFound <==> owner.None?)
    && (o == Allowed <==> owner.Some? && MayAccess(req, owner.value))
    && (o == Forbidden <==>
          owner.Some? && req.userId.Some? && req.user.Some? && !MayAccess(req, owner.value))
  }

  /**
   * The rule of the owner-only guard: 404 exactly when the record is
   * missing, allowed exactly for its owner, 403 exactly for any other
   * requester with an id, 500 when `req.userId` is undefined.
   */
  predicate OwnerOnlyRule(o: Outcome, req: Requester, owner: Option<string>)
  {
    && (o == NotFound <==> owner.None?)
    && (o == Allowed <==> owner.Some? && req.userId == Some(owner.value))
    && (o == Forbidden <==> owner.Some? && req.userId.Some? && req.userId.value != owner.value)
  }

  /**
   * GET /user/:userId: `req.userId.toString() !== userId && req.user.role !==
   * 'admin'` answers 403; evaluation stops at the first operand when the ids
   * match, so `req.user` is read only for another user's list.
   */
  function ListReturns(req: Requester, pathUserId: string): (o: Outcome)
    ensures o != NotFound
    ensures o == Allowed <==> MayAccess(req, pathUserId)
    ensures o == Forbidden <==> req.userId.Some? && req.user.Some? && !MayAccess(req, pathUserId)
    ensures o == ServerError <==> req.userId.None? || (req.user.None? && req.userId.value != pathUserId)
  {
    match req.userId
    case None => ServerError
    case Some(id) =>
      if id == pathUserId then Allowed
      else
        match req.user
        case None => ServerError
        case Some(p) => if IsAdmin(p) then Allowed else Forbidden
  }

  /**
   * The guard shared by the handlers of one stored record: 404 when the
   * lookup found nothing, then `record.userId.toString() !==
   * req.userId.toString()` (and, when admins are exempt, `req.user.role !==
   * 'admin'`) answers 403. `owner` is the owner id of the record the lookup
   * returned, None when it returned nothing.
   */
  function GuardRecord(req: Requester, owner: Option<string>, adminExempt: bool): (o: Outcome)
    ensures adminExempt ==> OwnerOrAdminRule(o, req, owner)
    ensures !adminExempt ==> OwnerOnlyRule(o, req, owner)
  {
    match owner
    case None => NotFound
    case Some(ownerId) =>
      match req.userId
      case None => ServerError
      case Some(id) =>
        if ownerId == id then Allowed
        else if !adminExempt then Forbidden
        else
          match req.user
          case None => ServerError
          case Some(p) => if IsAdmin(p) then Allowed else Forbidden
  }

  /** GET /return/:id: 404 before any ownership test, then owner or admin. */
  function ReadReturn(req: Requester, owner: Option<string>): (o: Outcome)
    ensures OwnerOrAdminRule(o, req, owner)
  {
    GuardRecord(req, owner, true)
  }

  /** PUT /return/:id: 404 first, then the owner only; the role is never read. */
  function UpdateReturn(req: Requester, owner: Option<string>): (o: Outcome)
    ensures OwnerOnlyRule(o, req, owner)
    ensures forall user: Option<Principal> :: o == GuardRecord(Requester(req.userId, user), owner, false)
  {
    GuardRecord(req, owner, false)
  }

  /** DELETE /return/:id: 404 before any ownership test, then owner or admin. */
  function DeleteReturn(req: Requester, owner: Option<string>): (o: Outcome)
    ensures OwnerOrAdminRule(o, req, owner)
  {
    GuardRecord(req, owner, true)
  }

  /** GET /document/:id: 404 before any ownership test, then owner or admin. */
  function DownloadDocument(req: Requester, owner: Option<string>): (o: Outcome)
    ensures OwnerOrAdminRule(o, req, owner)
  {
    GuardRecord(req, owner, true)
  }

  /** DELETE /document/:id: 404 before any ownership test, then owner or admin. */
  function DeleteDocument(req: Requester, owner: Option<string>): (o: Outcome)
    ensures OwnerOrAdminRule(o, req, owner)
  {
    GuardRecord(req, owner, true)
  }

  /**
   * The HTTP statuses the record guards answer with: a missing record is 404
   * whoever asks, so 404 is decided before 403; a 403 needs an existing
   * record and a requester id; and the only other statuses are 200 and 500.
   */
  lemma GuardStatuses(req: Requester, owner: Option<string>, adminExempt: bool)
    ensures GuardRecord(req, None, adminExempt).Status() == 404
    ensures GuardRecord(req, owner, adminExempt).Status() == 404 <==> owner.None?
    ensures GuardRecord(req, owner, adminExempt).Status() == 403 ==> owner.Some? && req.userId.Some?
    ensures GuardRecord(req, owner, adminExempt).Status() in {200, 403, 404, 500}
  {
  }

  /**
   * Whoever may update a return may also read and delete it; an admin who
   * does not own a return may read and delete it but not update it.
   */
  lemma UpdateIsStrictest(req: Requester, owner: Option<string>)
    ensures UpdateReturn(req, owner) == Allowed ==>
      ReadReturn(req, owner) == Allowed && DeleteReturn(req, owner) == Allowed
    ensures (owner.Some? && req.userId.Some? && req.userId.value != owner.value
             && req.user.Some? && IsAdmin(req.user.value)) ==>
      ReadReturn(req, owner) == Allowed && DeleteReturn(req, owner) == Allowed
      && UpdateReturn(req, owner) == Forbidden
  {
  }

  /** The document routes apply exactly the rule of the tax-return read and delete routes. */
  lemma DocumentsFollowReturnRules(req: Requester, owner: Option<string>)
    ensures DownloadDocument(req, owner) == ReadReturn(req, owner)
    ensures DeleteDocument(req, owner) == DeleteReturn(req, owner)
  {
  }

  // ---------------------------------------------------------------------
  // GET /deadlines

  datatype Deadline = Deadline(date: string, description: string)

  /** The three deadlines for the year the clock reports, in the order listed. */
  function Deadlines(currentYear: int): (ds: seq<Deadline>)
    ensures |ds| == 3
    ensures ds[0].description == "Income Tax Return Deadline"
    ensures ds[1].description == "Capital Gains Tax Payment Deadline"
    ensures ds[2].description == "Tax Payment Deadline for Self-Assessed Income Tax"
  {
    [ Deadline(IntText(currentYear) + "-10-31", "Income Tax Return Deadline"),
      Deadline(IntText(currentYear) + "-12-15", "Capital Gains Tax Payment Deadline"),
      Deadline(IntText(currentYear + 1) + "-01-31", "Tax Payment Deadline for Self-Assessed Income Tax") ]
  }

  /** A calendar date as a `YYYY-MM-DD` string denotes it. */
  datatype Date = Date(year: int, month: nat, day: nat)

  predicate Before(a: Date, b: Date)
  {
    a.year < b.year
    || (a.year == b.year && a.month < b.month)
    || (a.year == b.year && a.month == b.month && a.day < b.day)
  }

  /** The value of a two-digit field. */
  function TwoDigits(tens: char, units: char): nat
    requires IsDigit(tens) && IsDigit(units)
  {
    10 * (tens as int - '0' as int) + (units as int - '0' as int)
  }

  /** Reads `<year>-MM-DD`, the year optionally signed; None for anything else. */
  function ParseDate(s: string): Option<Date>
  {
    if 7 <= |s| && s[|s| - 6] == '-' && s[|s| - 3] == '-'
       && IsDigit(s[|s| - 5]) && IsDigit(s[|s| - 4]) && IsDigit(s[|s| - 2]) && IsDigit(s[|s| - 1]) then
      match ParseInt(s[..|s| - 6])
      case Some(y) => Some(Date(y, TwoDigits(s[|s| - 5], s[|s| - 4]), TwoDigits(s[|s| - 2], s[|s| - 1])))
      case None => None
    else None
  }

  /** The text of year `y` followed by a `-MM-DD` suffix reads back as that date. */
  lemma ParseYearText(y: int, suffix: string)
    requires |suffix| == 6 && suffix[0] == '-' && suffix[3] == '-'
    requires IsDigit(suffix[1]) && IsDigit(suffix[2]) && IsDigit(suffix[4]) && IsDigit(suffix[5])
    ensures ParseDate(IntText(y) + suffix)
         == Some(Date(y, TwoDigits(suffix[1], suffix[2]), TwoDigits(suffix[4], suffix[5])))
  {
    var s := IntText(y) + suffix;
    assert s[..|s| - 6] == IntText(y);
    IntTextRoundTrip(y);
  }

  /** The date the i-th deadline of the year is meant to fall on. */
  function DueDate(currentYear: int, i: nat): Date
    requires i < 3
  {
    if i == 0 then Date(currentYear, 10, 31)
    else if i == 1 then Date(currentYear, 12, 15)
    else Date(currentYear + 1, 1, 31)
  }

  /**
   * For any current year Y the deadlines are 31 October Y, 15 December Y and
   * 31 January Y+1, each later than the one before.
   */
  lemma DeadlineDates(currentYear: int)
    ensures forall i | 0 <= i < 3 :: ParseDate(Deadlines(currentYear)[i].date) == Some(DueDate(currentYear, i))
    ensures forall i, j | 0 <= i < j < 3 :: Before(DueDate(currentYear, i), DueDate(currentYear, j))
  {
    ParseYearText(currentYear, "-10-31");
    ParseYearText(currentYear, "-12-15");
    ParseYearText(currentYear + 1, "-01-31");
  }
}
