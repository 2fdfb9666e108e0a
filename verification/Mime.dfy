/** The walk over a message's leaf parts under an attachment policy: bodies are chosen,
    attachments and inline media are kept or stripped, kept bytes go to the blob store. */
module Mime {
  import opened Models
  import opened Observability
  import opened Streaming

  /** A leaf part in document order.  `text` is its content as text, whatever its charset. */
  datatype Leaf = Leaf(
    contentType: string,
    disposition: string,
    contentId: Option<string>,
    filename: string,
    payload: Payload,
    text: string)
  {
    predicate IsPlainBody() {
      contentType in {"text/plain", "text/html"} && filename == "" && contentId.None?
    }

    predicate IsAttachment() {
      disposition == "attachment" || (filename != "" && disposition != "inline")
    }

    predicate IsInlineMedia() {
      contentId.Some? || (disposition == "inline" && !IsPlainBody())
    }

    /** Decides which rule of the policy applies. */
    predicate InlineForPolicy() {
      IsInlineMedia() && disposition != "attachment"
    }

    predicate IsCarried() {
      IsAttachment() || IsInlineMedia()
    }
  }

  datatype Attachment = Attachment(
    filename: string,
    contentType: string,
    contentId: string,
    isInline: bool,
    contentHash: string,
    sizeBytes: nat,
    storageRef: string)

  /** A rule's allowlist and scanner are given as tests on an attachment's metadata. */
  datatype Rule = Rule(allows: Attachment -> bool, maxBytes: nat, blocks: Attachment -> bool)

  datatype Policy = Policy(attached: Rule, inlined: Rule)

  /** The hash function and the base64 decoder's leniency. */
  datatype Codec = Codec(hash: Bytes -> string, lenient: Lenient)

  const CHUNK: positive := 65536

  type Blobs = map<string, Bytes>

  class InMemoryBlobStore {
    var blobs: Blobs

    constructor ()
      ensures blobs == map[]
    {
      blobs := map[];
    }

    /** Stores the chunks under the reference unless it is taken. */
    method PutStream(ref: string, chunks: seq<Bytes>) returns (stored: string)
      modifies this
      ensures stored == ref
      ensures blobs == Stored(old(blobs), ref, Flatten(chunks))
    {
      if ref !in blobs {
        blobs := blobs[ref := Flatten(chunks)];
      }
      stored := ref;
    }
  }

  function Stored(blobs: Blobs, ref: string, bytes: Bytes): Blobs {
    if ref in blobs then blobs else blobs[ref := bytes]
  }

  // ---- One part ----

  datatype Judgement = Keep(attachment: Attachment) | Remove(strip: Strip)

  function Unhashed(leaf: Leaf): Attachment {
    Attachment(leaf.filename, leaf.contentType, if leaf.contentId.Some? then leaf.contentId.value else "",
               leaf.IsInlineMedia() && !leaf.IsAttachment(), "", 0, "")
  }

  function StripOf(leaf: Leaf, reason: StripReason, size: nat): Strip {
    Strip(leaf.filename, leaf.contentType, size, leaf.InlineForPolicy(), reason)
  }

  function RuleFor(policy: Policy, leaf: Leaf): Rule {
    if leaf.InlineForPolicy() then policy.inlined else policy.attached
  }

  function BytesOf(codec: Codec, leaf: Leaf): Bytes {
    Flatten(Decoded(leaf.payload, CHUNK, codec.lenient).chunks)
  }

  /** What becomes of one attachment or inline part; the part and the policy decide alone. */
  function Judge(policy: Policy, codec: Codec, storing: bool, leaf: Leaf): Judgement {
    var rule, meta := RuleFor(policy, leaf), Unhashed(leaf);
    if !rule.allows(meta) then Remove(StripOf(leaf, NotAllowlisted, 0))
    else
      match DigestOf(leaf.payload, rule.maxBytes, CHUNK, codec.hash, codec.lenient)
      case TooLarge(_) => Remove(StripOf(leaf, Oversize, 0))
      case Unreadable => Remove(StripOf(leaf, StripReason.Unreadable, 0))
      case Digest(hash, size) =>
        var known := meta.(contentHash := hash, sizeBytes := size);
        if rule.blocks(known) then Remove(StripOf(leaf, Scanner, size))
        else Keep(known.(storageRef := if storing && size != 0 then hash else ""))
  }

  // ---- The whole walk ----

  datatype Walk = Walk(text: string, html: string, kept: seq<Attachment>, stripped: seq<Strip>, blobs: Blobs)

  function WithJudgement(w: Walk, codec: Codec, storing: bool, leaf: Leaf, judgement: Judgement): Walk {
    match judgement
    case Keep(a) =>
      w.(kept := w.kept + [a],
         blobs := if storing && a.sizeBytes != 0 then Stored(w.blobs, a.contentHash, BytesOf(codec, leaf)) else w.blobs)
    case Remove(strip) => w.(stripped := w.stripped + [strip])
  }

  function Visit(policy: Policy, codec: Codec, storing: bool, w: Walk, leaf: Leaf): Walk {
    if !leaf.IsCarried() && leaf.contentType == "text/plain" && w.text == "" then w.(text := leaf.text)
    else if !leaf.IsCarried() && leaf.contentType == "text/html" && w.html == "" then w.(html := leaf.text)
    else if leaf.IsCarried() then WithJudgement(w, codec, storing, leaf, Judge(policy, codec, storing, leaf))
    else w
  }

  function Walked(policy: Policy, codec: Codec, storing: bool, w: Walk, leaves: seq<Leaf>): Walk
    decreases |leaves|
  {
    if leaves == [] then w
    else Walked(policy, codec, storing, Visit(policy, codec, storing, w, leaves[0]), leaves[1..])
  }

  /** The text of a message that has only HTML is made from it. */
  function BodyText(w: Walk, htmlToText: string -> string): string {
    if w.text == "" && w.html != "" then htmlToText(w.html) else w.text
  }

  class Extractor {
    const policy: Policy
    const codec: Codec
    const htmlToText: string -> string

    constructor (policy: Policy, codec: Codec, htmlToText: string -> string)
      ensures this.policy == policy && this.codec == codec && this.htmlToText == htmlToText
    {
      this.policy, this.codec, this.htmlToText := policy, codec, htmlToText;
    }

    /** Every violation strips the part; nothing raises. */
    method ProcessPolicy(leaf: Leaf, store: InMemoryBlobStore?) returns (judgement: Judgement)
      modifies store
      ensures judgement == Judge(policy, codec, store != null, leaf)
      ensures store != null ==>
                store.blobs == WithJudgement(Walk("", "", [], [], old(store.blobs)), codec, true, leaf, judgement).blobs
    {
      var rule, meta := RuleFor(policy, leaf), Unhashed(leaf);
      if !rule.allows(meta) {
        return Remove(StripOf(leaf, NotAllowlisted, 0));
      }
      var digest, _ := DigestAndSize(leaf.payload, rule.maxBytes, CHUNK, codec.hash, codec.lenient);
      match digest {
        case TooLarge(_) => judgement := Remove(StripOf(leaf, Oversize, 0));
        case Unreadable => judgement := Remove(StripOf(leaf, StripReason.Unreadable, 0));
        case Digest(hash, size) =>
          meta := meta.(contentHash := hash, sizeBytes := size);
          if rule.blocks(meta) {
            return Remove(StripOf(leaf, Scanner, size));
          }
          var ref := "";
          if store != null && size != 0 {
            var out := IterDecoded(leaf.payload, CHUNK, codec.lenient);
            ref := store.PutStream(hash, out.chunks);
          }
          judgement := Keep(meta.(storageRef := ref));
      }
    }

    method WalkBody(leaves: seq<Leaf>, store: InMemoryBlobStore?)
      returns (text: string, html: string, kept: seq<Attachment>, stripped: seq<Strip>)
      modifies store
      ensures var before := if store != null then old(store.blobs) else map[];
              var w := Walked(policy, codec, store != null, Walk("", "", [], [], before), leaves);
              && text == BodyText(w, htmlToText) && html == w.html && kept == w.kept && stripped == w.stripped
              && (store != null ==> store.blobs == w.blobs)
    {
      ghost var before := if store != null then store.blobs else map[];
      ghost var whole := Walked(policy, codec, store != null, Walk("", "", [], [], before), leaves);
      text, html, kept, stripped := "", "", [], [];
      assert leaves[0..] == leaves;
      for i := 0 to |leaves|
        invariant whole == Walked(policy, codec, store != null,
                                  Walk(text, html, kept, stripped, if store != null then store.blobs else map[]),
                                  leaves[i..])
      {
        var leaf := leaves[i];
        assert leaves[i..][0] == leaf && leaves[i..][1..] == leaves[i + 1..];
        if !leaf.IsCarried() && leaf.contentType == "text/plain" && text == "" {
          text := leaf.text;
        } else if !leaf.IsCarried() && leaf.contentType == "text/html" && html == "" {
          html := leaf.text;
        } else if leaf.IsCarried() {
          var judgement := ProcessPolicy(leaf, store);
          match judgement {
            case Keep(a) => kept := kept + [a];
            case Remove(strip) => stripped := stripped + [strip];
          }
        }
      }
      if text == "" && html != "" {
        text := htmlToText(html);
      }
    }
  }

  // ---- One part, exactly ----

  /** What a leaf counts as, case by case of its disposition: an attachment, an inline part, or
      neither, and then at most a body. */
  datatype Kind = Attached | Inlined | Loose

  function KindOf(leaf: Leaf): Kind {
    if leaf.disposition == "attachment" then Attached
    else if leaf.disposition == "inline" then
      if leaf.contentId.None? && leaf.filename == "" && leaf.contentType in ["text/plain", "text/html"] then Loose
      else Inlined
    else if leaf.contentId.Some? then Inlined
    else if leaf.filename != "" then Attached
    else Loose
  }

  /** A part's own metadata; one that was given a name is inline only if it says so. */
  function Described(leaf: Leaf): Attachment {
    var id := match leaf.contentId case Some(id) => id case None => "";
    Attachment(leaf.filename, leaf.contentType, id,
               KindOf(leaf) == Inlined && (leaf.disposition == "inline" || leaf.filename == ""), "", 0, "")
  }

  /** Where a violation is recorded, whatever the violation. */
  predicate Names(strip: Strip, leaf: Leaf) {
    strip.filename == leaf.filename && strip.contentType == leaf.contentType
    && (strip.isInline <==> KindOf(leaf) == Inlined)
  }

  function Governing(policy: Policy, kind: Kind): Rule {
    match kind
    case Inlined => policy.inlined
    case _ => policy.attached
  }

  lemma {:induction false} FailedHasNoDigest(chunks: seq<Bytes>, cap: nat, hash: Bytes -> string, seen: Bytes)
    requires |seen| <= cap
    ensures var digest := Digested(chunks, true, cap, hash, seen);
            if cap < |seen + Flatten(chunks)| then digest.TooLarge? else digest == Digest.Unreadable
    decreases |chunks|
  {
    if chunks != [] && |seen| + |chunks[0]| <= cap {
      FailedHasNoDigest(chunks[1..], cap, hash, seen + chunks[0]);
    }
  }

  /** A part is carried if and only if it counts as an attachment or as inline, is judged by
      the rule of what it counts as, and is shown to it under its own metadata. */
  lemma CarriedExactly(policy: Policy, leaf: Leaf)
    ensures leaf.IsCarried() <==> KindOf(leaf) != Loose
    ensures leaf.IsCarried() ==> RuleFor(policy, leaf) == Governing(policy, KindOf(leaf))
    ensures Unhashed(leaf) == Described(leaf)
    ensures forall reason, size :: Names(StripOf(leaf, reason, size), leaf)
  {
  }

  /** A kept part's size and hash are those of its bytes. */
  lemma KeptIsHashed(policy: Policy, codec: Codec, storing: bool, leaf: Leaf)
    requires Judge(policy, codec, storing, leaf).Keep?
    ensures var a, bytes := Judge(policy, codec, storing, leaf).attachment, BytesOf(codec, leaf);
            && a.sizeBytes == |bytes| <= RuleFor(policy, leaf).maxBytes
            && (bytes != [] ==> a.contentHash == codec.hash(bytes))
            && a.storageRef == if storing && bytes != [] then a.contentHash else ""
  {
    var out, cap := Decoded(leaf.payload, CHUNK, codec.lenient), RuleFor(policy, leaf).maxBytes;
    if out.failed {
      FailedHasNoDigest(out.chunks, cap, codec.hash, []);
    } else {
      DigestIsOfTheWhole(out.chunks, cap, codec.hash, []);
      assert [] + Flatten(out.chunks) == BytesOf(codec, leaf);
    }
  }

  /** The answer for a part whose decoding gives these bytes, the checks in turn: type, size,
      decoding, scanner. */
  ghost predicate Answers(policy: Policy, codec: Codec, storing: bool, leaf: Leaf, bytes: Bytes, failed: bool,
                          judgement: Judgement) {
    var rule, meta := Governing(policy, KindOf(leaf)), Described(leaf);
    var known := meta.(contentHash := if bytes == [] then "" else codec.hash(bytes), sizeBytes := |bytes|);
    && (judgement.Keep? <==> rule.allows(meta) && |bytes| <= rule.maxBytes && !failed && !rule.blocks(known))
    && (judgement.Keep? ==>
          judgement.attachment == known.(storageRef := if storing && bytes != [] then codec.hash(bytes) else ""))
    && (judgement.Remove? ==>
          && Names(judgement.strip, leaf)
          && judgement.strip.reason == (if !rule.allows(meta) then NotAllowlisted
                                        else if rule.maxBytes < |bytes| then Oversize
                                        else if failed then StripReason.Unreadable
                                        else Scanner)
          && judgement.strip.sizeBytes == if judgement.strip.reason == Scanner then |bytes| else 0)
  }

  /** What becomes of a carried part: it is kept if and only if its rule allows it, it fits the
      cap, it decodes, and the scanner, shown its true size and hash, lets it pass; a strip
      names the first check that failed.  The bytes of a well-formed part are its content. */
  lemma {:induction false} JudgedExactly(policy: Policy, codec: Codec, storing: bool, leaf: Leaf)
    requires KindOf(leaf) != Loose
    ensures var out := Decoded(leaf.payload, CHUNK, codec.lenient);
            && Answers(policy, codec, storing, leaf, Flatten(out.chunks), out.failed,
                       Judge(policy, codec, storing, leaf))
            && (Content(leaf.payload).Some? ==> !out.failed && Flatten(out.chunks) == Content(leaf.payload).value)
  {
    var out, rule := Decoded(leaf.payload, CHUNK, codec.lenient), RuleFor(policy, leaf);
    CarriedExactly(policy, leaf);
    if Content(leaf.payload).Some? {
      DecodableIsDecoded(leaf.payload, CHUNK, codec.lenient);
    }
    assert [] + Flatten(out.chunks) == Flatten(out.chunks);
    if out.failed {
      FailedHasNoDigest(out.chunks, rule.maxBytes, codec.hash, []);
    } else {
      DigestIsOfTheWhole(out.chunks, rule.maxBytes, codec.hash, []);
    }
  }

  // ---- All parts ----

  function KeptOf(policy: Policy, codec: Codec, storing: bool, leaf: Leaf): seq<Attachment> {
    if KindOf(leaf) != Loose && Judge(policy, codec, storing, leaf).Keep?
        then [Judge(policy, codec, storing, leaf).attachment] else []
  }

  function StrippedOf(policy: Policy, codec: Codec, storing: bool, leaf: Leaf): seq<Strip> {
    if KindOf(leaf) != Loose && Judge(policy, codec, storing, leaf).Remove?
        then [Judge(policy, codec, storing, leaf).strip] else []
  }

  function Keeps(policy: Policy, codec: Codec, storing: bool, leaves: seq<Leaf>): seq<Attachment> {
    if leaves == [] then []
    else KeptOf(policy, codec, storing, leaves[0]) + Keeps(policy, codec, storing, leaves[1..])
  }

  function Strips(policy: Policy, codec: Codec, storing: bool, leaves: seq<Leaf>): seq<Strip> {
    if leaves == [] then []
    else StrippedOf(policy, codec, storing, leaves[0]) + Strips(policy, codec, storing, leaves[1..])
  }

  function Carried(leaves: seq<Leaf>): nat {
    if leaves == [] then 0 else (if KindOf(leaves[0]) != Loose then 1 else 0) + Carried(leaves[1..])
  }

  /** The first non-empty text of this type among the parts that are not carried. */
  function FirstText(leaves: seq<Leaf>, contentType: string): string {
    if leaves == [] then ""
    else if KindOf(leaves[0]) == Loose && leaves[0].contentType == contentType && leaves[0].text != ""
    then leaves[0].text
    else FirstText(leaves[1..], contentType)
  }

  lemma VisitJudges(policy: Policy, codec: Codec, storing: bool, w: Walk, leaf: Leaf)
    ensures Visit(policy, codec, storing, w, leaf).kept == w.kept + KeptOf(policy, codec, storing, leaf)
    ensures Visit(policy, codec, storing, w, leaf).stripped == w.stripped + StrippedOf(policy, codec, storing, leaf)
  {
  }

  lemma Regroup<T>(a: seq<T>, b: seq<T>, c: seq<T>)
    ensures a + b + c == a + (b + c)
  {
  }

  lemma {:induction false} WalkKeeps(policy: Policy, codec: Codec, storing: bool, w: Walk, leaves: seq<Leaf>)
    ensures Walked(policy, codec, storing, w, leaves).kept == w.kept + Keeps(policy, codec, storing, leaves)
    decreases |leaves|
  {
    if leaves != [] {
      var next, rest := Visit(policy, codec, storing, w, leaves[0]), leaves[1..];
      VisitJudges(policy, codec, storing, w, leaves[0]);
      WalkKeeps(policy, codec, storing, next, rest);
      Regroup(w.kept, KeptOf(policy, codec, storing, leaves[0]), Keeps(policy, codec, storing, rest));
    }
  }

  lemma {:induction false} WalkStrips(policy: Policy, codec: Codec, storing: bool, w: Walk, leaves: seq<Leaf>)
    ensures Walked(policy, codec, storing, w, leaves).stripped == w.stripped + Strips(policy, codec, storing, leaves)
    decreases |leaves|
  {
    if leaves != [] {
      var next, rest := Visit(policy, codec, storing, w, leaves[0]), leaves[1..];
      VisitJudges(policy, codec, storing, w, leaves[0]);
      WalkStrips(policy, codec, storing, next, rest);
      Regroup(w.stripped, StrippedOf(policy, codec, storing, leaves[0]), Strips(policy, codec, storing, rest));
    }
  }

  lemma {:induction false} NothingIsDropped(policy: Policy, codec: Codec, storing: bool, leaves: seq<Leaf>)
    ensures |Keeps(policy, codec, storing, leaves)| + |Strips(policy, codec, storing, leaves)| == Carried(leaves)
  {
    if leaves != [] {
      NothingIsDropped(policy, codec, storing, leaves[1..]);
    }
  }

  /** Every attachment or inline part is either kept or stripped, once, in document order,
      and as if it were alone. */
  lemma WalkPartitions(policy: Policy, codec: Codec, storing: bool, blobs: Blobs, leaves: seq<Leaf>)
    ensures var end := Walked(policy, codec, storing, Walk("", "", [], [], blobs), leaves);
            && end.kept == Keeps(policy, codec, storing, leaves)
            && end.stripped == Strips(policy, codec, storing, leaves)
            && |end.kept| + |end.stripped| == Carried(leaves)
  {
    WalkKeeps(policy, codec, storing, Walk("", "", [], [], blobs), leaves);
    WalkStrips(policy, codec, storing, Walk("", "", [], [], blobs), leaves);
    NothingIsDropped(policy, codec, storing, leaves);
  }

  /** The bodies are the first that are not empty, whatever is carried between them. */
  lemma {:induction false} WalkChoosesBodies(policy: Policy, codec: Codec, storing: bool, w: Walk, leaves: seq<Leaf>)
    ensures var end := Walked(policy, codec, storing, w, leaves);
            && end.text == (if w.text != "" then w.text else FirstText(leaves, "text/plain"))
            && end.html == (if w.html != "" then w.html else FirstText(leaves, "text/html"))
    decreases |leaves|
  {
    if leaves != [] {
      WalkChoosesBodies(policy, codec, storing, Visit(policy, codec, storing, w, leaves[0]), leaves[1..]);
    }
  }

  /** A message that has only HTML gets its text from it; any other keeps its own. */
  lemma TextFallsBackExactly(policy: Policy, codec: Codec, storing: bool, blobs: Blobs, leaves: seq<Leaf>,
                             htmlToText: string -> string)
    ensures var end := Walked(policy, codec, storing, Walk("", "", [], [], blobs), leaves);
            var text, html := FirstText(leaves, "text/plain"), FirstText(leaves, "text/html");
            && (text != "" || html == "" ==> BodyText(end, htmlToText) == text)
            && (text == "" && html != "" ==> BodyText(end, htmlToText) == htmlToText(html))
            && end.html == html
  {
    WalkChoosesBodies(policy, codec, storing, Walk("", "", [], [], blobs), leaves);
  }

  // ---- The blob store ----

  /** The hash of the bytes at a reference is the reference. */
  ghost predicate ContentAddressed(codec: Codec, blobs: Blobs) {
    forall ref | ref in blobs :: codec.hash(blobs[ref]) == ref
  }

  predicate Stores(policy: Policy, codec: Codec, leaf: Leaf) {
    KindOf(leaf) != Loose && Judge(policy, codec, true, leaf).Keep? && BytesOf(codec, leaf) != []
  }

  function RefsOf(policy: Policy, codec: Codec, leaves: seq<Leaf>): set<string> {
    if leaves == [] then {}
    else (if Stores(policy, codec, leaves[0]) then {codec.hash(BytesOf(codec, leaves[0]))} else {})
         + RefsOf(policy, codec, leaves[1..])
  }

  lemma VisitStores(policy: Policy, codec: Codec, w: Walk, leaf: Leaf)
    ensures Visit(policy, codec, true, w, leaf).blobs
         == if Stores(policy, codec, leaf)
             then Stored(w.blobs, codec.hash(BytesOf(codec, leaf)), BytesOf(codec, leaf)) else w.blobs
  {
    if leaf.IsCarried() && Judge(policy, codec, true, leaf).Keep? {
      KeptIsHashed(policy, codec, true, leaf);
    }
  }

  /** A walk adds to the blob store exactly the hashes of the kept non-empty parts, leaves
      what was there alone, and keeps the store content-addressed. */
  lemma {:induction false} WalkStores(policy: Policy, codec: Codec, w: Walk, leaves: seq<Leaf>)
    requires ContentAddressed(codec, w.blobs)
    ensures var end := Walked(policy, codec, true, w, leaves);
            && end.blobs.Keys == w.blobs.Keys + RefsOf(policy, codec, leaves)
            && (forall ref | ref in w.blobs :: end.blobs[ref] == w.blobs[ref])
            && ContentAddressed(codec, end.blobs)
    decreases |leaves|
  {
    if leaves != [] {
      VisitStores(policy, codec, w, leaves[0]);
      WalkStores(policy, codec, Visit(policy, codec, true, w, leaves[0]), leaves[1..]);
    }
  }

  /** So every kept part's reference leads to bytes with its hash. */
  lemma {:induction false} RefsResolve(policy: Policy, codec: Codec, w: Walk, leaves: seq<Leaf>)
    requires ContentAddressed(codec, w.blobs)
    ensures var end := Walked(policy, codec, true, w, leaves);
            forall a | a in Keeps(policy, codec, true, leaves) && a.storageRef != "" ::
              a.storageRef == a.contentHash && a.storageRef in end.blobs
                && codec.hash(end.blobs[a.storageRef]) == a.contentHash
  {
    WalkStores(policy, codec, w, leaves);
    KeptAreStored(policy, codec, leaves);
  }

  lemma {:induction false} KeptAreStored(policy: Policy, codec: Codec, leaves: seq<Leaf>)
    ensures forall a | a in Keeps(policy, codec, true, leaves) && a.storageRef != "" ::
              a.storageRef == a.contentHash && a.contentHash in RefsOf(policy, codec, leaves)
    decreases |leaves|
  {
    if leaves != [] {
      KeptAreStored(policy, codec, leaves[1..]);
      if KindOf(leaves[0]) != Loose && Judge(policy, codec, true, leaves[0]).Keep? {
        KeptIsHashed(policy, codec, true, leaves[0]);
      }
    }
  }
}
