/** Rules and directions shared by the engine, the settings file and the rate limiter. */
module Core {

  datatype Option<+T> = None | Some(value: T) {
    function GetOr(default: T): T {
      if Some? then value else default
    }
  }

  datatype Direction = Download | Upload

  /** The largest one-way delay the engine honours, in milliseconds. */
  const MAX_DELAY_MS: nat := 5000

  /** A rule for one process, or for all traffic when used as the global rule. */
  datatype ProcessRule = ProcessRule(
    blockAll: bool,
    limitDownload: bool,
    downloadKbps: nat,
    limitUpload: bool,
    uploadKbps: nat,
    adaptive: bool,
    downloadLoss: Option<nat>,
    uploadLoss: Option<nat>,
    downloadDelay: Option<nat>,
    uploadDelay: Option<nat>,
    adjustedDownload: real,
    adjustedUpload: real)
  {
    predicate HasAnyRule() {
      || blockAll
      || limitDownload
      || downloadKbps > 0
      || limitUpload
      || uploadKbps > 0
      || adaptive
      || downloadLoss.Some?
      || uploadLoss.Some?
      || downloadDelay.Some?
      || uploadDelay.Some?
    }

    function Loss(direction: Direction): Option<nat> {
      match direction
      case Download => downloadLoss
      case Upload => uploadLoss
    }

    function Delay(direction: Direction): Option<nat> {
      match direction
      case Download => downloadDelay
      case Upload => uploadDelay
    }

    function TargetRate(direction: Direction): Option<real> {
      match direction
      case Download => if limitDownload && downloadKbps > 0 then Some(downloadKbps as real * 1024.0) else None
      case Upload => if limitUpload && uploadKbps > 0 then Some(uploadKbps as real * 1024.0) else None
    }

    function EffectiveRate(direction: Direction): Option<real> {
      match TargetRate(direction)
      case None => None
      case Some(target) =>
        if !adaptive then Some(target)
        else
          var adjusted := if direction == Download then adjustedDownload else adjustedUpload;
          Some(if adjusted > 0.0 then adjusted else target)
    }
  }

  const DEFAULT_RULE: ProcessRule :=
    ProcessRule(false, false, 0, false, 0, false, None, None, None, None, 0.0, 0.0)

  function Max(a: nat, b: nat): nat {
    if a < b then b else a
  }
}
