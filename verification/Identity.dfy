/** The idempotency key under which a message is claimed, traced and dead-lettered. */
module Identity {

  const SEPARATOR := '|'

  function IdempotencyKey(tenant: string, mailbox: string, providerMessageId: string): string {
    tenant + [SEPARATOR] + mailbox + [SEPARATOR] + providerMessageId
  }

  predicate Plain(s: string) {
    SEPARATOR !in s
  }

  /** A separator-free head is determined by the joined string. */
  lemma {:induction false} HeadIsDetermined(head: string, rest: string, head': string, rest': string)
    requires Plain(head) && Plain(head')
    requires head + [SEPARATOR] + rest == head' + [SEPARATOR] + rest'
    ensures head == head' && rest == rest'
  {
    var whole := head + [SEPARATOR] + rest;
    assert whole[|head|] == SEPARATOR;
    assert whole[|head'|] == SEPARATOR;
    assert forall k | 0 <= k < |head| :: whole[k] == head[k] && head[k] != SEPARATOR;
    assert forall k | 0 <= k < |head'| :: whole[k] == head'[k] && head'[k] != SEPARATOR;
    assert |head| == |head'|;
    assert head == whole[..|head|] == head';
    assert rest == whole[|head| + 1..] == rest';
  }

  /** Two arrivals share a key only if they are the same arrival, as long as tenants and
      mailboxes hold no separator; the provider's message id may hold any character. */
  lemma {:induction false} KeyIsInjective(
    tenant: string, mailbox: string, id: string, tenant': string, mailbox': string, id': string)
    requires Plain(tenant) && Plain(mailbox) && Plain(tenant') && Plain(mailbox')
    requires IdempotencyKey(tenant, mailbox, id) == IdempotencyKey(tenant', mailbox', id')
    ensures tenant == tenant' && mailbox == mailbox' && id == id'
  {
    var rest, rest' := mailbox + [SEPARATOR] + id, mailbox' + [SEPARATOR] + id';
    assert IdempotencyKey(tenant, mailbox, id) == tenant + [SEPARATOR] + rest;
    assert IdempotencyKey(tenant', mailbox', id') == tenant' + [SEPARATOR] + rest';
    HeadIsDetermined(tenant, rest, tenant', rest');
    HeadIsDetermined(mailbox, id, mailbox', id');
  }

  ghost predicate KeyIsUnshared(tenant: string, mailbox: string, id: string) {
    forall tenant', mailbox', id' ::
      IdempotencyKey(tenant', mailbox', id') == IdempotencyKey(tenant, mailbox, id) ==>
      tenant' == tenant && mailbox' == mailbox && id' == id
  }

  /** Without that restriction on the others, a key is shared with no other triple exactly
      when none of its own three parts holds the separator. */
  lemma {:induction false} KeyIsUnsharedExactly(tenant: string, mailbox: string, id: string)
    ensures KeyIsUnshared(tenant, mailbox, id) <==> Plain(tenant) && Plain(mailbox) && Plain(id)
  {
    if Plain(tenant) && Plain(mailbox) && Plain(id) {
      forall tenant', mailbox', id'
        | IdempotencyKey(tenant', mailbox', id') == IdempotencyKey(tenant, mailbox, id)
        ensures tenant' == tenant && mailbox' == mailbox && id' == id
      {
        PlainKeyHasOneReading(tenant, mailbox, id, tenant', mailbox', id');
      }
    } else if !Plain(tenant) {
      var cut :| 0 <= cut < |tenant| && tenant[cut] == SEPARATOR;
      var other := IdempotencyKey(tenant[..cut], tenant[cut + 1..], mailbox + [SEPARATOR] + id);
      assert tenant == tenant[..cut] + [SEPARATOR] + tenant[cut + 1..];
      assert other == IdempotencyKey(tenant, mailbox, id);
      assert |tenant[..cut]| != |tenant|;
    } else if !Plain(mailbox) {
      var cut :| 0 <= cut < |mailbox| && mailbox[cut] == SEPARATOR;
      var other := IdempotencyKey(tenant, mailbox[..cut], mailbox[cut + 1..] + [SEPARATOR] + id);
      assert mailbox == mailbox[..cut] + [SEPARATOR] + mailbox[cut + 1..];
      assert other == IdempotencyKey(tenant, mailbox, id);
      assert |mailbox[..cut]| != |mailbox|;
    } else {
      var cut :| 0 <= cut < |id| && id[cut] == SEPARATOR;
      var other := IdempotencyKey(tenant + [SEPARATOR] + mailbox, id[..cut], id[cut + 1..]);
      assert id == id[..cut] + [SEPARATOR] + id[cut + 1..];
      assert other == IdempotencyKey(tenant, mailbox, id);
      assert |tenant + [SEPARATOR] + mailbox| != |tenant|;
    }
  }

  /** A string with exactly two separators splits in one way only. */
  lemma {:induction false} PlainKeyHasOneReading(
    tenant: string, mailbox: string, id: string, tenant': string, mailbox': string, id': string)
    requires Plain(tenant) && Plain(mailbox) && Plain(id)
    requires IdempotencyKey(tenant', mailbox', id') == IdempotencyKey(tenant, mailbox, id)
    ensures tenant' == tenant && mailbox' == mailbox && id' == id
  {
    var whole := IdempotencyKey(tenant, mailbox, id);
    var first, second := |tenant|, |tenant| + 1 + |mailbox|;
    var first', second' := |tenant'|, |tenant'| + 1 + |mailbox'|;
    assert forall k | 0 <= k < first :: whole[k] == tenant[k];
    assert forall k | first < k < second :: whole[k] == mailbox[k - first - 1];
    assert forall k | second < k < |whole| :: whole[k] == id[k - second - 1];
    assert forall k | 0 <= k < |whole| && whole[k] == SEPARATOR :: k == first || k == second;
    assert whole[first'] == SEPARATOR && whole[second'] == SEPARATOR;
    assert tenant' == whole[..first'] && tenant == whole[..first];
    assert mailbox' == whole[first' + 1..second'] && mailbox == whole[first + 1..second];
    assert id' == whole[second' + 1..] && id == whole[second + 1..];
  }
}
