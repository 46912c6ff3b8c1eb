/** edgekit's own database: the certificate settings and the proxy-host rows, with the
    commit-or-roll-back session the services work in. */
module Store {
  import opened Common

  datatype Kind = Unset | Origin | LetsEncrypted

  /** The five `npm_certificate_*` settings. A fingerprint identifies the DER content. */
  datatype Recorded = Recorded(id: Option<nat>, name: string, expires: Option<int>, fingerprint: Option<Der>, kind: Kind) {
    /** Older installs recorded no kind, and installed the Origin certificate. */
    ghost predicate ForOrigin() { kind.Unset? || kind.Origin? }
  }

  /** A proxy host as edgekit stores it. */
  datatype Row = Row(domain: string, forwardHost: string, forwardPort: nat, scheme: string,
                     forceSsl: bool, http2: bool, websockets: bool, blockExploits: bool,
                     npmHost: Option<nat>, npmCert: Option<nat>, dnsRecord: Option<nat>)

  datatype State = State(cert: Recorded, rows: seq<Row>)

  /** Rows are unique by domain. */
  ghost predicate UniqueDomains(rows: seq<Row>) {
    forall i, j | 0 <= i < j < |rows| :: rows[i].domain != rows[j].domain
  }

  /** A session: `live` is what the code sees and changes, `saved` what a rollback returns to. */
  class Session {
    var live: State
    var saved: State

    method Commit()
      modifies this`saved
      ensures saved == live
    {
      saved := live;
    }

    method Rollback()
      modifies this`live
      ensures live == saved
    {
      live := saved;
    }
  }
}
