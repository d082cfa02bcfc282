/** The deterministic idempotency key of a send job (core/queue.py). */
module IdempotencyKey {
  import opened Text
  import opened Records

  function Parts(k: JobKey): seq<string>
  {
    ["send", PrintInt(k.org), PrintInt(k.campaign), PrintInt(k.lead), PrintInt(k.email)]
  }

  /** `send:{organization}:{campaign}:{lead}:{email record}`. */
  function KeyText(k: JobKey): string
  {
    Join(Parts(k), ':')
  }

  /** The pieces of the text, in their order. */
  lemma KeyTextPieces(k: JobKey)
    ensures Split(KeyText(k), ':') == ["send", PrintInt(k.org), PrintInt(k.campaign), PrintInt(k.lead), PrintInt(k.email)]
  {
    PrintIntAvoids(k.org, ':'); PrintIntAvoids(k.campaign, ':');
    PrintIntAvoids(k.lead, ':'); PrintIntAvoids(k.email, ':');
    SplitJoin(Parts(k), ':');
  }

  function ParseKey(text: string): Option<JobKey>
  {
    var p := Split(text, ':');
    if |p| == 5 && p[0] == "send"
    then Some(JobKey(ParseInt(p[1]), ParseInt(p[2]), ParseInt(p[3]), ParseInt(p[4])))
    else None
  }

  /** Parsing undoes printing, for every tuple of integers. */
  lemma ParseUndoesPrint(k: JobKey)
    ensures ParseKey(KeyText(k)) == Some(k)
  {
    KeyTextPieces(k);
    ParsePrintInt(k.org); ParsePrintInt(k.campaign); ParsePrintInt(k.lead); ParsePrintInt(k.email);
  }

  /** Two jobs share a key exactly when they were created from the same four ids. */
  lemma KeyTextIdentifiesJob(a: JobKey, b: JobKey)
    ensures KeyText(a) == KeyText(b) <==> a == b
  {
    ParseUndoesPrint(a);
    ParseUndoesPrint(b);
  }
}
