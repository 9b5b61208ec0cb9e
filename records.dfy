/** The query record shared by the simulator and the detector. In the Python
    program a record is a dictionary; the detector reads it with defaults for
    missing keys and annotates it in place, so here it is an object whose
    optional keys are `Option` fields. */
module Records {

  datatype Option<+T> = None | Some(value: T) {
    /** Python's `d.get(key, default)`. */
    function GetOr(default: T): T {
      match this
      case Some(v) => v
      case None => default
    }
  }

  /** Timestamps count microseconds, the resolution of Python's `datetime`. */
  const MicrosPerSecond: int := 1_000_000

  /** One DNS query. Timestamps are on one common clock. */
  class QueryRecord {
    var timestamp: Option<int>
    var clientIp: string
    var qtype: Option<string>
    var domain: Option<string>
    var suspicious: bool
    /** Absent until the detector flags the record. */
    var entropy: Option<real>

    /** A record as the simulator builds it: every key but `entropy` present. */
    constructor (timestamp: int, clientIp: string, qtype: string, domain: string, suspicious: bool)
      ensures this.timestamp == Some(timestamp) && this.clientIp == clientIp
      ensures this.qtype == Some(qtype) && this.domain == Some(domain)
      ensures this.suspicious == suspicious && this.entropy == None
    {
      this.timestamp := Some(timestamp);
      this.clientIp := clientIp;
      this.qtype := Some(qtype);
      this.domain := Some(domain);
      this.suspicious := suspicious;
      this.entropy := None;
    }
  }
}
