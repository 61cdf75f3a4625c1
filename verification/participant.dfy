/** The per-participant key-value store (oTree's `participant.vars`) as an
    explicit record, and the entries of the round ledger kept in it. */
module Participant {
  import opened Base

  /** A round of treatment t4 is played as a borrower or as a saver. */
  datatype Role = Borrower | Saver

  /** The player fields copied into a ledger entry; a field the player does
      not have, or has not set, is None. */
  datatype Snapshot = Snapshot(
    round: int,
    c1: Option<real>,
    c2: Option<real>,
    u: Option<real>,
    hTrue: Option<real>,
    hHat: Option<real>,
    beliefInputRaw: Option<real>,
    y1: Option<real>,
    pi: Option<real>,
    redCount: Option<int>)

  /** One element of `participant.vars['main_rounds']`. */
  datatype Entry = Entry(treatment: string, data: Snapshot)

  /** `participant.vars`. Each map is keyed by the literal key the source
      uses ("t0_schedule", "t1_images", "t4_roles", ...); the maps are split
      by the shape of the stored value. An absent key is an absent map entry. */
  datatype Vars = Vars(
    // "<treatment>_schedule" written by the shared create_session: (red count, y1)
    exchangeSchedules: map<string, seq<(int, int)>>,
    // "t1_schedule", "t4_schedule": (red count, income factor)
    factorSchedules: map<string, seq<(int, real)>>,
    // "training_schedule": (pi, income factor)
    comboSchedules: map<string, seq<(real, real)>>,
    // "<treatment>_images"
    images: map<string, seq<string>>,
    // "t4_roles"
    roles: map<string, seq<Role>>,
    // "main_rounds", absent until the first round is recorded
    mainRounds: Option<seq<Entry>>,
    // "final_payoff_set"
    finalPayoffSet: bool)

  /** The store of a participant who has not played yet. */
  const Fresh: Vars := Vars(map[], map[], map[], map[], map[], None, false)

  /** `participant.vars.get('main_rounds', [])`. */
  function Ledger(v: Vars): seq<Entry> {
    v.mainRounds.GetOr([])
  }

  /** w is v with one more ledger entry, labelled `app`, whose belief lies
      in [0, 1], whose c2 is at least 1 and whose utility is at least c1. */
  ghost predicate AppendsFeasibleEntry(v: Vars, w: Vars, app: string, c1: real) {
    && |Ledger(w)| == |Ledger(v)| + 1
    && Ledger(w)[|Ledger(v)|].treatment == app
    && Ledger(w)[|Ledger(v)|].data.hHat.Some? && 0.0 <= Ledger(w)[|Ledger(v)|].data.hHat.value <= 1.0
    && Ledger(w)[|Ledger(v)|].data.c2.Some? && Ledger(w)[|Ledger(v)|].data.c2.value >= 1.0
    && Ledger(w)[|Ledger(v)|].data.u.Some? && Ledger(w)[|Ledger(v)|].data.u.value >= c1
  }
}
