/** The three programs together: a pass minted by the hub and filed by the
    store, then updated by the health authority or scanned, through the router. */
module Flows {
  import opened Protocol
  import Store
  import Router
  import Hub

  /** A minted pass reaches the store's create handler and is filed, valid,
      under the user's card number with today's date and the computed expiry. */
  lemma IssueFilesRecord(files: map<Id, GpRecord>, id: Id, t: Hub.Tm)
    ensures Store.Dispatch(Hub.IssueConnection(Hub.Mint(id, t)).roles) == Store.CreateFlow
    ensures Store.BodyFits(Hub.IssueConnection(Hub.Mint(id, t)))
    ensures var (files', reply) := Store.Step(files, Hub.IssueConnection(Hub.Mint(id, t)));
            reply == NoReply
            && files' == files[id := GpRecord(id, PassValid, Hub.StartDate(t), Hub.ExpireDate(t))]
  {
  }

  /** Mint a pass, then scan it on a date within its expiry field by field:
      the scanner receives "GP valido". */
  lemma MintThenScanIsValid(files: map<Id, GpRecord>, id: Id, t: Hub.Tm, today: Date)
    requires Router.FieldwiseWithin(today, Hub.ExpireDate(t))
    ensures Store.BodyFits(Hub.IssueConnection(Hub.Mint(id, t)))
    ensures var files' := Store.Step(files, Hub.IssueConnection(Hub.Mint(id, t))).0;
            Router.Session(files', Connection([ScannerRole], IdBody(id)), today).1 == [Router.ValidText]
  {
  }

  /** Mint a pass, have the authority report it negative, then scan it: the
      scanner is refused, whatever the date. */
  lemma MintRevokeScanIsInvalid(files: map<Id, GpRecord>, id: Id, t: Hub.Tm, today: Date)
    ensures Store.BodyFits(Hub.IssueConnection(Hub.Mint(id, t)))
    ensures var files1 := Store.Step(files, Hub.IssueConnection(Hub.Mint(id, t))).0;
            var revoke := Connection([ReportClientRole], ReportBody(ReportPacket(id, PassInvalid)));
            Router.BodyFits(revoke)
            && Router.Session(files1, revoke, today).1 == [Router.DoneText]
            && Router.Session(Router.Session(files1, revoke, today).0,
                              Connection([ScannerRole], IdBody(id)), today).1 == [Router.InvalidText]
  {
  }

  /** Scanning a number the hub never issued tells the scanner it does not
      exist, and updating it tells the authority the same. */
  lemma UnknownNumber(files: map<Id, GpRecord>, id: Id, flag: char, today: Date)
    requires id !in files
    ensures Router.Session(files, Connection([ScannerRole], IdBody(id)), today) == (files, [Router.MissingText])
    ensures Router.Session(files, Connection([ReportClientRole], ReportBody(ReportPacket(id, flag))), today)
         == (files, [Router.MissingText])
  {
  }
}
