/** The `codes` table and the one statement that adds rows to it. */
module CodeTable {
  import opened Common

  /** The columns an INSERT supplies. */
  datatype Draft = Draft(
    tenant: int, source: Option<string>, target: string, sender: string,
    platform: Option<string>, code: string, subject: string, excerpt: string,
    messageId: Option<string>, rawUid: Option<string>, receivedAt: int)

  datatype Consumption = Consumption(at: int, keyId: Option<nat>, note: Option<string>)

  datatype CodeRow = CodeRow(id: nat, content: Draft, consumed: Option<Consumption>)

  /** Rows in insertion order, and the next value of the id sequence. */
  datatype Codes = Codes(rows: seq<CodeRow>, nextId: nat)

  datatype Inserted = New(id: nat) | Conflict | MissingSource

  /** Whether a row blocks `(target, messageId)` in the partial unique index. */
  predicate Blocks(row: CodeRow, target: string, messageId: Option<string>) {
    messageId.Some? && row.content.messageId == messageId && row.content.target == target
  }

  predicate HasKey(rows: seq<CodeRow>, target: string, messageId: Option<string>) {
    exists i :: 0 <= i < |rows| && Blocks(rows[i], target, messageId)
  }

  /** `INSERT ... ON CONFLICT (target_address, message_id) WHERE message_id IS NOT NULL DO NOTHING
      RETURNING id`. The sequence advances whether or not the row goes in; the foreign key on the
      source mailbox is checked only when it does. */
  function Insert(t: Codes, d: Draft, mailboxes: set<string>): (Codes, Inserted) {
    var advanced := t.(nextId := t.nextId + 1);
    if HasKey(t.rows, d.target, d.messageId) then (advanced, Conflict)
    else if d.source.Some? && d.source.value !in mailboxes then (advanced, MissingSource)
    else (advanced.(rows := t.rows + [CodeRow(t.nextId, d, None)]), New(t.nextId))
  }

  /** Both rows carry the same non-null key. */
  ghost predicate SameKey(a: CodeRow, b: CodeRow) {
    Blocks(a, b.content.target, b.content.messageId)
  }

  ghost predicate UniqueKeys(rows: seq<CodeRow>) {
    forall i, j :: 0 <= i < j < |rows| ==> !SameKey(rows[i], rows[j])
  }

  ghost predicate Valid(t: Codes) {
    && (forall i :: 0 <= i < |t.rows| ==> t.rows[i].id < t.nextId)
    && (forall i, j :: 0 <= i < j < |t.rows| ==> t.rows[i].id < t.rows[j].id)
    && UniqueKeys(t.rows)
  }

  lemma InsertKeepsValid(t: Codes, d: Draft, mailboxes: set<string>)
    requires Valid(t)
    ensures Valid(Insert(t, d, mailboxes).0)
  {
    var t' := Insert(t, d, mailboxes).0;
    forall i, j | 0 <= i < j < |t'.rows|
      ensures !SameKey(t'.rows[i], t'.rows[j])
    {
      if j == |t.rows| {
        assert t'.rows[i] == t.rows[i];
      }
    }
  }

  /** A row that goes in is the last, with the values given, a fresh id, and not consumed; otherwise all
      rows stay as they are. It goes in exactly when its key is null or new and its source mailbox, if
      any, exists. */
  lemma InsertAddsTheRow(t: Codes, d: Draft, mailboxes: set<string>)
    requires Valid(t)
    ensures var (t', inserted) := Insert(t, d, mailboxes);
      && (inserted.New? <==>
            && (d.messageId == None || forall row :: row in t.rows ==>
                  row.content.target != d.target || row.content.messageId != d.messageId)
            && (d.source == None || d.source.value in mailboxes))
      && (inserted.New? ==>
            && t'.rows == t.rows + [CodeRow(inserted.id, d, None)]
            && forall row :: row in t.rows ==> row.id != inserted.id)
      && (!inserted.New? ==> t'.rows == t.rows)
  {
    var inserted := Insert(t, d, mailboxes).1;
    if inserted.Conflict? {
      var i :| 0 <= i < |t.rows| && Blocks(t.rows[i], d.target, d.messageId);
      assert t.rows[i] in t.rows;
    }
  }

  /** After an INSERT that raised nothing, a non-null key is on exactly one row. */
  lemma InsertLeavesExactlyOne(t: Codes, d: Draft, mailboxes: set<string>)
    requires Valid(t) && d.messageId.Some?
    requires !Insert(t, d, mailboxes).1.MissingSource?
    ensures ExactlyOne(Insert(t, d, mailboxes).0.rows, d.target, d.messageId)
  {
    InsertKeepsValid(t, d, mailboxes);
    var rows := Insert(t, d, mailboxes).0.rows;
    if Insert(t, d, mailboxes).1.New? {
      assert Blocks(rows[|rows| - 1], d.target, d.messageId);
    }
    ValidKeyIsExactlyOne(Insert(t, d, mailboxes).0, d.target, d.messageId);
  }

  ghost predicate ExactlyOne(rows: seq<CodeRow>, target: string, messageId: Option<string>) {
    exists i ::
      && 0 <= i < |rows| && Blocks(rows[i], target, messageId)
      && forall j :: 0 <= j < |rows| && Blocks(rows[j], target, messageId) ==> j == i
  }

  lemma ValidKeyIsExactlyOne(t: Codes, target: string, messageId: Option<string>)
    requires Valid(t) && HasKey(t.rows, target, messageId)
    ensures ExactlyOne(t.rows, target, messageId)
  {
    var i :| 0 <= i < |t.rows| && Blocks(t.rows[i], target, messageId);
    forall j | 0 <= j < |t.rows| && Blocks(t.rows[j], target, messageId)
      ensures j == i
    {
      assert SameKey(t.rows[i], t.rows[j]) && SameKey(t.rows[j], t.rows[i]);
    }
  }
}
