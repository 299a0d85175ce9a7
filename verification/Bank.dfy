/** One person's clip bank: what a clip carries, and the bars and caps of
    backend/anchors.py. Times and lengths are whole seconds and milliseconds. */
module Bank {
  import opened Wrappers
  import opened Ledger

  type FileName = int  // a clip file's name

  datatype Provenance = Introduction | Correction | Accumulated | HarvestedShort | ColdStart

  /** `stamp` is membro's own address for a clip pulled from there, and
      `leftMembro` marks a set-aside clip membro was already told to delete. */
  datatype Clip = Clip(
    file: FileName,
    millis: int,
    score: int,
    addedAt: nat,  // 0 when the clip carries no timestamp
    source: Provenance,
    moved: bool,
    quarantined: bool,
    leftMembro: bool,
    stamp: Option<Sha>)

  const SHORT_CLIP_MAX_MILLIS := 2000
  const KEEP_CLIPS: nat := 10
  const KEEP_SHORT_CLIPS: nat := 5
  const SESSION_GAP_S := 2 * 3600
  const SUFFICIENT_MILLIS := 6000
  const QUARANTINE_MAX: nat := KEEP_CLIPS + KEEP_SHORT_CLIPS
  const SETTLE_MIN_CLIPS := 10
  const SETTLE_MIN_DAYS := 2
  const SETTLE_WINDOW_S := 7 * 86400
  const DROP_ROWS_MAX: nat := 500

  predicate IsShort(c: Clip) {
    c.millis <= SHORT_CLIP_MAX_MILLIS
  }

  function Cap(short: bool): nat {
    if short then KEEP_SHORT_CLIPS else KEEP_CLIPS
  }

  predicate Vouching(source: Provenance) {
    source == Introduction || source == Correction
  }

  /** Did a human stand behind this clip? */
  predicate Protected(c: Clip) {
    Vouching(c.source) || c.moved
  }

  predicate Active(c: Clip) {
    !c.quarantined
  }

  /** Strictly better quality: a higher score, or newer on a tie. */
  predicate Better(c: Clip, d: Clip) {
    c.score > d.score || (c.score == d.score && c.addedAt > d.addedAt)
  }
}
