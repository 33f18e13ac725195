/** The durable table of exit addresses (internal/app/store.go): one row per
    observed address, with a flag that says whether it was ever assigned. */
module Store {

  type IP = string
  type Rows = map<IP, bool>

  /** How one statement ends: cleanly, with an error and no effect, or with an
      error although its effect was committed. */
  datatype Fault = Clean | FailedBefore | FailedAfter

  predicate Used(rows: Rows, ip: IP) {
    ip in rows && rows[ip]
  }

  /** No row disappears and no used flag falls. */
  ghost predicate Grows(before: Rows, after: Rows) {
    forall ip :: ip in before ==> ip in after && (before[ip] ==> after[ip])
  }

  /** The rows left by an insert that does nothing on a conflict. */
  function Observed(rows: Rows, ip: IP, fault: Fault): (after: Rows)
    ensures Grows(rows, after)
    ensures forall x :: Used(after, x) <==> Used(rows, x)
    ensures after.Keys == rows.Keys + if fault == FailedBefore then {} else {ip}
  {
    if fault.FailedBefore? || ip in rows then rows else rows[ip := false]
  }

  /** Whether the update of Consume finds its row. */
  predicate Matches(rows: Rows, ip: IP, unique: bool) {
    ip in rows && (unique ==> !rows[ip])
  }

  /** The rows left by Consume. */
  function Consumed(rows: Rows, ip: IP, unique: bool, fault: Fault): (after: Rows)
    ensures Grows(rows, after)
    ensures after.Keys == rows.Keys
    ensures forall x :: x != ip ==> (Used(after, x) <==> Used(rows, x))
    ensures Used(after, ip) <==> Used(rows, ip) || (!fault.FailedBefore? && Matches(rows, ip, unique))
  {
    if fault.FailedBefore? || !Matches(rows, ip, unique) then rows else rows[ip := true]
  }

  /** Each method is one transaction under the store's own lock. */
  class Database {
    var rows: Rows

    constructor ()
      ensures rows == map[]
    {
      rows := map[];
    }

    /** Records an address; reports whether it is still unused. */
    method Observe(ip: IP, fault: Fault) returns (unused: bool, failed: bool)
      modifies this
      ensures rows == Observed(old(rows), ip, fault)
      ensures failed <==> !fault.Clean?
      ensures !failed ==> (unused <==> !Used(old(rows), ip))
    {
      unused, failed := false, true;
      if fault.FailedBefore? {
        return;
      }
      if ip !in rows {
        rows := rows[ip := false];
      }
      if fault.Clean? {
        unused, failed := !rows[ip], false;
      }
    }

    /** Raises the used flag; in unique mode only if it was still down. */
    method Consume(ip: IP, unique: bool, fault: Fault) returns (ok: bool, failed: bool)
      modifies this
      ensures rows == Consumed(old(rows), ip, unique, fault)
      ensures failed <==> !fault.Clean?
      ensures !failed ==> (ok <==> Matches(old(rows), ip, unique))
    {
      ok, failed := false, true;
      if fault.FailedBefore? {
        return;
      }
      var hit := ip in rows && (!unique || !rows[ip]);
      if hit {
        rows := rows[ip := true];
      }
      if fault.Clean? {
        ok, failed := hit, false;
      }
    }
  }

  /** Two clean unique-mode consumes of one address never both succeed,
      whatever happened to the table in between. */
  lemma ConsumeOnce(rows: Rows, later: Rows, ip: IP)
    requires Matches(rows, ip, true)
    requires Grows(Consumed(rows, ip, true, Clean), later)
    ensures !Matches(later, ip, true)
  {
    assert ip in Consumed(rows, ip, true, Clean);
  }
}
