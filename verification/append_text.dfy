/** The length of an AppendEntries request. A receiver reads one buffer of it; what is cut short
    is no JSON text and is refused. */
module AppendText {
  import opened RaftTypes
  import opened ByteCodec
  import opened JsonText

  function EntryText(e: Entry): string {
    Object(Key("command") + Quoted(e.command) + Field("index", Decimal(e.index)) + Field("term", Decimal(e.term)))
  }

  function EntriesText(es: Log): string {
    if es == [] then ""
    else if |es| == 1 then EntryText(es[0])
    else EntryText(es[0]) + "," + EntriesText(es[1..])
  }

  function LeaderText(a: AppendArgs): string {
    Field("leaderCommit", Decimal(a.leaderCommit)) + Field("leaderId", Decimal(a.leaderId))
  }

  function PrevText(a: AppendArgs): string {
    Field("prevLogIndex", Decimal(a.prevLogIndex)) + Field("prevLogTerm", Decimal(a.prevLogTerm))
  }

  function CallText(a: AppendArgs): string {
    Field("rpc", "\"AppendEntries\"") + Field("term", Decimal(a.term))
  }

  /** The JSON text of a request: the fields in the order of their names. */
  function Json(a: AppendArgs): string {
    Object(Key("entries") + List(EntriesText(a.entries)) + (LeaderText(a) + PrevText(a) + CallText(a)))
  }

  /** The request reaches the handler as a whole. */
  predicate Fits(a: AppendArgs) {
    |Json(a)| <= MAX_REQUEST
  }

  lemma DecimalNotEmpty(v: int)
    ensures |Decimal(v)| >= 1
  {}

  lemma EntryLong(e: Entry)
    ensures |EntryText(e)| >= |e.command| + 33
  {
    DecimalNotEmpty(e.index);
    DecimalNotEmpty(e.term);
  }

  lemma EntryShort(e: Entry)
    requires Int32(e.index) && Int32(e.term)
    ensures |EntryText(e)| <= |Escaped(e.command)| + 53
  {
    DecimalLength(e.index);
    DecimalLength(e.term);
  }

  predicate AllLong(es: Log) {
    forall i | 0 <= i < |es| :: |es[i].command| >= 400
  }

  /** Commands whose escaped text is short, and numbers of 32 bits. */
  predicate AllShort(es: Log) {
    forall i | 0 <= i < |es| :: Int32(es[i].index) && Int32(es[i].term) && |Escaped(es[i].command)| <= 340
  }

  lemma {:induction false} EntriesLong(es: Log)
    requires AllLong(es)
    ensures |EntriesText(es)| >= 433 * |es|
  {
    if es != [] {
      EntriesLong(es[1..]);
      EntryLong(es[0]);
    }
  }

  lemma {:induction false} EntriesShort(es: Log)
    requires AllShort(es)
    ensures |EntriesText(es)| <= 394 * |es|
  {
    if es != [] {
      EntriesShort(es[1..]);
      EntryShort(es[0]);
    }
  }

  /** Nineteen entries with commands of 400 characters are too long for one request. */
  lemma LongDoesNotFit(a: AppendArgs)
    requires |a.entries| >= 19 && AllLong(a.entries)
    ensures !Fits(a)
  {
    EntriesLong(a.entries);
  }

  lemma RestShort(a: AppendArgs)
    requires Int32(a.leaderCommit) && Int32(a.leaderId) && Int32(a.term)
    requires Int32(a.prevLogIndex) && Int32(a.prevLogTerm)
    ensures |LeaderText(a)| <= 50 && |PrevText(a)| <= 53 && |CallText(a)| <= 41
  {
    NumberShort("leaderCommit", a.leaderCommit);
    NumberShort("leaderId", a.leaderId);
    NumberShort("prevLogIndex", a.prevLogIndex);
    NumberShort("prevLogTerm", a.prevLogTerm);
    NumberShort("term", a.term);
  }

  /** A full batch of commands of at most 340 characters, escapes included, is not. */
  lemma ShortFits(a: AppendArgs)
    requires |a.entries| <= 20 && AllShort(a.entries)
    requires Int32(a.leaderCommit) && Int32(a.leaderId) && Int32(a.term)
    requires Int32(a.prevLogIndex) && Int32(a.prevLogTerm)
    ensures Fits(a)
  {
    EntriesShort(a.entries);
    RestShort(a);
  }
}
