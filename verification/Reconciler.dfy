// execution/reconciliation.py: the only code that changes positions and the portfolio.
module Reconciler {
  import opened Schemas

  function Fraction(executedUsd: real, totalUsd: real): real {
    if totalUsd > 0.0 then executedUsd / totalUsd else 0.0
  }

  // A position and the portfolio it belongs to.
  datatype Book = Book(position: PositionState, portfolio: Portfolio)

  function Applied(b: Book, action: ActionType, venueType: VenueType, executedUsd: real, at: int): Book {
    var f := Fraction(executedUsd, b.portfolio.totalUsd);
    match action
    case BUY =>
      Book(
        b.position.(isOpen := true, venueType := venueType, exposure := b.position.exposure + f),
        b.portfolio.(
          tokenExposure := b.portfolio.tokenExposure + f,
          chainExposure := b.portfolio.chainExposure + f,
          openPositions := b.portfolio.openPositions + 1))
    case EXIT =>
      Book(
        PositionState(false, NO_TRADE, 0.0, Some(at)),
        b.portfolio.(
          tokenExposure := Max(b.portfolio.tokenExposure - f, 0.0),
          chainExposure := Max(b.portfolio.chainExposure - f, 0.0),
          openPositions := if b.portfolio.openPositions - 1 >= 0 then b.portfolio.openPositions - 1 else 0))
    case _ => b
  }

  // What a reconciliation leaves behind; execution.status plays no part in it.
  function Verdict(
    position: PositionState,
    portfolio: Portfolio,
    intent: Option<Intent>,
    allowed: bool,
    execution: Option<Report>,
    at: int): Reconciliation
  {
    var id := if intent.Some? then Some(intent.value.id) else None;
    if intent.None? || execution.None? || !allowed then
      Reconciliation(id, position, portfolio, false, at)
    else
      var b := Applied(
        Book(position, portfolio), intent.value.Action(), intent.value.VenueType(),
        execution.value.executedUsd, execution.value.timestamp);
      Reconciliation(id, b.position, b.portfolio, true, at)
  }

  // A purchase, field by field: open on the order's venue, with what was executed as a fraction of the portfolio on top
  // of both exposures, one slot taken, and the last exit kept.
  ghost predicate Bought(
    position: PositionState, portfolio: Portfolio, venueType: VenueType, executedUsd: real, r: Reconciliation)
  {
    var part := if portfolio.totalUsd > 0.0 then executedUsd / portfolio.totalUsd else 0.0;
    && r.position.isOpen && r.position.venueType == venueType && r.position.lastExit == position.lastExit
    && r.position.exposure == position.exposure + part
    && r.portfolio.totalUsd == portfolio.totalUsd && r.portfolio.dailyPnl == portfolio.dailyPnl
    && r.portfolio.tokenExposure == portfolio.tokenExposure + part
    && r.portfolio.chainExposure == portfolio.chainExposure + part
    && r.portfolio.openPositions == portfolio.openPositions + 1
  }

  // A sale: closed without a venue or exposure, the exit at the time of the report, the executed part taken off both
  // exposures and one slot freed, none of them below zero.
  ghost predicate Sold(
    position: PositionState, portfolio: Portfolio, executedUsd: real, at: int, r: Reconciliation)
  {
    var part := if portfolio.totalUsd > 0.0 then executedUsd / portfolio.totalUsd else 0.0;
    && !r.position.isOpen && r.position.venueType == NO_TRADE && r.position.lastExit == Some(at)
    && r.position.exposure == 0.0
    && r.portfolio.totalUsd == portfolio.totalUsd && r.portfolio.dailyPnl == portfolio.dailyPnl
    && r.portfolio.tokenExposure == (if portfolio.tokenExposure >= part then portfolio.tokenExposure - part else 0.0)
    && r.portfolio.chainExposure == (if portfolio.chainExposure >= part then portfolio.chainExposure - part else 0.0)
    && r.portfolio.openPositions == (if portfolio.openPositions >= 1 then portfolio.openPositions - 1 else 0)
  }

  method ReconcileExecution(
    position: PositionState,
    portfolio: Portfolio,
    intent: Option<Intent>,
    allowed: bool,
    execution: Option<Report>,
    at: int) returns (result: Reconciliation)
    ensures result == Verdict(position, portfolio, intent, allowed, execution, at)
    // Applied exactly to an allowed order that has a report, whatever the report says; else all stays as it was.
    ensures result.applied <==> intent.Some? && allowed && execution.Some?
    ensures result.timestamp == at && (result.id.Some? <==> intent.Some?)
    ensures intent.Some? ==> result.id == Some(intent.value.id)
    ensures !result.applied ==> result.position == position && result.portfolio == portfolio
    ensures result.applied && intent.value.Action() == BUY ==>
      Bought(position, portfolio, intent.value.VenueType(), execution.value.executedUsd, result)
    ensures result.applied && intent.value.Action() == EXIT ==>
      Sold(position, portfolio, execution.value.executedUsd, execution.value.timestamp, result)
    ensures result.applied && intent.value.Action() !in {BUY, EXIT} ==>
      result.position == position && result.portfolio == portfolio
  {
    if intent.None? || execution.None? || !allowed {
      return Reconciliation(if intent.Some? then Some(intent.value.id) else None, position, portfolio, false, at);
    }
    var updatedPosition := position;
    var updatedPortfolio := portfolio;
    var fraction := 0.0;
    if updatedPortfolio.totalUsd > 0.0 {
      fraction := execution.value.executedUsd / updatedPortfolio.totalUsd;
    }
    if intent.value.Action() == BUY {
      updatedPosition := updatedPosition.(isOpen := true);
      updatedPosition := updatedPosition.(venueType := intent.value.VenueType());
      updatedPosition := updatedPosition.(exposure := updatedPosition.exposure + fraction);
      updatedPortfolio := updatedPortfolio.(tokenExposure := updatedPortfolio.tokenExposure + fraction);
      updatedPortfolio := updatedPortfolio.(chainExposure := updatedPortfolio.chainExposure + fraction);
      updatedPortfolio := updatedPortfolio.(openPositions := updatedPortfolio.openPositions + 1);
    } else if intent.value.Action() == EXIT {
      updatedPosition := updatedPosition.(isOpen := false);
      updatedPosition := updatedPosition.(lastExit := Some(execution.value.timestamp));
      updatedPosition := updatedPosition.(venueType := NO_TRADE);
      updatedPosition := updatedPosition.(exposure := 0.0);
      updatedPortfolio := updatedPortfolio.(tokenExposure := Max(updatedPortfolio.tokenExposure - fraction, 0.0));
      updatedPortfolio := updatedPortfolio.(chainExposure := Max(updatedPortfolio.chainExposure - fraction, 0.0));
      updatedPortfolio := updatedPortfolio.(
        openPositions := if updatedPortfolio.openPositions - 1 >= 0 then updatedPortfolio.openPositions - 1 else 0);
    }
    result := Reconciliation(Some(intent.value.id), updatedPosition, updatedPortfolio, true, at);
  }
}
