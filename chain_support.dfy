/**
 * The per-chain resource facade (`chainSupport`): its construction from a
 * consenter, its delegation to the chain, and the block write path that runs
 * the deferred committers, stamps the SIGNATURES and LAST_CONFIGURATION
 * metadata and appends the block to the ledger.
 */
module MultiChain {
  import opened Wrappers
  import opened Protos
  import opened Filters
  import opened LastConfig

  /** A committer handed over with a block; `id` tells committers apart. */
  datatype Committer = Committer(id: nat)

  /** The order in which the write path acts, as observed from outside. */
  datatype Event =
    | Committed(committer: Committer)
    | SignaturesStamped(number: uint64)
    | LastConfigStamped(number: uint64)
    | Appended(number: uint64)
    | AppendPanicked(number: uint64)

  /** The events of invoking each committer once, in list order. */
  function Invocations(committers: seq<Committer>): (es: seq<Event>)
    ensures |es| == |committers|
    ensures forall i | 0 <= i < |es| :: es[i] == Committed(committers[i])
  {
    if committers == [] then []
    else Invocations(committers[..|committers| - 1]) + [Committed(committers[|committers| - 1])]
  }

  /** The fatal outcomes of newChainSupport (logger.Fatalf). */
  datatype Fatal =
    | UnknownConsensusType(consensusType: string)
    | HandleChainFailed(reason: string)

  /** The SIGNATURES slot: a nil value with one signature over header and block header. */
  function SignaturesEntry(codec: Codec, signer: Signer, signatureHeader: Bytes, header: BlockHeader): (entry: Bytes)
    ensures entry == codec.marshalMetadata(
      Metadata([], [MetadataSignature(signatureHeader, signer.sign(signatureHeader + codec.headerBytes(header)))]))
  {
    NilValueSigned(signatureHeader, codec.headerBytes(header));
    var value: Bytes := [];
    var signed := ConcatenateBytes([value, signatureHeader, codec.headerBytes(header)]);
    codec.marshalMetadata(Metadata(value, [MetadataSignature(signatureHeader, signer.sign(signed))]))
  }

  /** The LAST_CONFIGURATION slot: the encoded index with one signature over it. */
  function LastConfigEntry(codec: Codec, signer: Signer, signatureHeader: Bytes, header: BlockHeader, index: uint64): (entry: Bytes)
    ensures var value := codec.marshalLastConfiguration(LastConfiguration(index));
      entry == codec.marshalMetadata(
        Metadata(value, [MetadataSignature(signatureHeader, signer.sign(value + signatureHeader + codec.headerBytes(header)))]))
  {
    var value := codec.marshalLastConfiguration(LastConfiguration(index));
    ConcatenateThree(value, signatureHeader, codec.headerBytes(header));
    var signed := ConcatenateBytes([value, signatureHeader, codec.headerBytes(header)]);
    codec.marshalMetadata(Metadata(value, [MetadataSignature(signatureHeader, signer.sign(signed))]))
  }

  /**
   * Read back, the SIGNATURES slot carries no value and exactly one signature,
   * made over the signature header followed by the block header bytes.
   */
  lemma SignaturesEntryReadsBack(codec: Codec, signer: Signer, signatureHeader: Bytes, header: BlockHeader, m: Metadata)
    requires Injective(codec)
    requires codec.marshalMetadata(m) == SignaturesEntry(codec, signer, signatureHeader, header)
    ensures m.value == [] && |m.signatures| == 1
    ensures m.signatures[0].signatureHeader == signatureHeader
    ensures m.signatures[0].signature == signer.sign(signatureHeader + codec.headerBytes(header))
  {
    NilValueSigned(signatureHeader, codec.headerBytes(header));
  }

  /**
   * Read back, the LAST_CONFIGURATION slot carries a value that decodes to
   * `index` and exactly one signature, made over that value, the signature
   * header and the block header bytes.
   */
  lemma LastConfigEntryReadsBack(codec: Codec, signer: Signer, signatureHeader: Bytes, header: BlockHeader,
                                 index: uint64, m: Metadata, lc: LastConfiguration)
    requires Injective(codec)
    requires codec.marshalMetadata(m) == LastConfigEntry(codec, signer, signatureHeader, header, index)
    requires codec.marshalLastConfiguration(lc) == m.value
    ensures lc.index == index && |m.signatures| == 1
    ensures m.signatures[0].signatureHeader == signatureHeader
    ensures m.signatures[0].signature == signer.sign(m.value + signatureHeader + codec.headerBytes(header))
  {
    ConcatenateThree(m.value, signatureHeader, codec.headerBytes(header));
  }

  /**
   * The ledger collaborator allocates every metadata slot of the blocks it
   * builds, so both slots the write path stamps exist.
   */
  ghost predicate AllocatesSlots(nextBlock: (seq<BlockValue>, seq<Envelope>) -> BlockValue)
  {
    forall ledger, messages ::
      SIGNATURES < |nextBlock(ledger, messages).metadata| && LAST_CONFIGURATION < |nextBlock(ledger, messages).metadata|
  }

  /** A block under construction: the write path fills metadata slots in place. */
  class Block {
    var header: BlockHeader
    var data: BlockData
    var metadata: array<Bytes>

    function Value(): (v: BlockValue)
      reads this, metadata
    {
      BlockValue(header, data, metadata[..])
    }

    constructor (v: BlockValue)
      ensures Value() == v && fresh(metadata)
    {
      header, data := v.header, v.data;
      metadata := new Bytes[|v.metadata|](i requires 0 <= i < |v.metadata| => v.metadata[i]);
    }
  }

  /**
   * A consenter's chain, with the contract the Chain interface documents:
   * Enqueue accepts until the chain is halted, then refuses.
   */
  class Chain {
    var started: bool
    var halted: bool
    ghost var queued: seq<Envelope>

    constructor ()
      ensures !started && !halted && queued == []
    {
      started, halted, queued := false, false, [];
    }

    method Start()
      modifies this
      ensures started && halted == old(halted) && queued == old(queued)
    {
      started := true;
    }

    method Enqueue(env: Envelope) returns (accepted: bool)
      modifies this
      ensures accepted == !old(halted)
      ensures queued == if accepted then old(queued) + [env] else old(queued)
      ensures started == old(started) && halted == old(halted)
    {
      accepted := !halted;
      if accepted {
        queued := queued + [env];
      }
    }

    method Halt()
      modifies this
      ensures halted && started == old(started) && queued == old(queued)
    {
      halted := true;
    }
  }

  /**
   * A consensus implementation. HandleChain records every support it is
   * handed; `refusal` is the error this implementation reports, if any.
   */
  class Consenter {
    const refusal: Option<string>
    ghost var handled: seq<ChainSupport>

    constructor (refusal: Option<string>)
      ensures this.refusal == refusal && handled == []
    {
      this.refusal := refusal;
      handled := [];
    }

    method HandleChain(support: ChainSupport) returns (r: Result<Chain, string>)
      modifies this
      ensures handled == old(handled) + [support]
      ensures r.Failure? <==> refusal.Some?
      ensures r.Failure? ==> r.error == refusal.value
      ensures r.Success? ==> fresh(r.value) && !r.value.started && !r.value.halted && r.value.queued == []
    {
      handled := handled + [support];
      if refusal.Some? {
        r := Failure(refusal.value);
      } else {
        var chain := new Chain();
        r := Success(chain);
      }
    }
  }

  class ChainSupport {
    const filters: seq<Rule>
    const codec: Codec
    const signer: Signer
    /** rawledger.CreateNextBlock: the next block for a ledger and a batch. */
    const nextBlock: (seq<BlockValue>, seq<Envelope>) -> BlockValue
    var chain: Chain?
    var ledger: seq<BlockValue>
    var lastConfiguration: uint64
    var lastConfigSeq: uint64
    /** Set once logger.Panicf has fired: nothing runs after it. */
    var panicked: bool
    /** Every (block number, Sequence()) pair addLastConfigSignature has seen. */
    ghost var observations: seq<Observation>
    ghost var events: seq<Event>

    ghost predicate Valid()
      reads this
    {
      Tracker(lastConfiguration, lastConfigSeq) == Replay(Initial, observations)
    }

    /** The struct literal of newChainSupport; `chain` is filled in afterwards. */
    constructor (filters: seq<Rule>, backing: seq<BlockValue>, signer: Signer, codec: Codec,
                 nextBlock: (seq<BlockValue>, seq<Envelope>) -> BlockValue)
      ensures Valid() && !panicked
      ensures this.filters == filters && ledger == backing && this.signer == signer
      ensures this.codec == codec && this.nextBlock == nextBlock
      ensures chain == null && lastConfiguration == 0 && lastConfigSeq == 0
      ensures observations == [] && events == []
    {
      this.filters, ledger, this.signer, this.codec, this.nextBlock := filters, backing, signer, codec, nextBlock;
      chain := null;
      lastConfiguration, lastConfigSeq := 0, 0;
      panicked := false;
      observations, events := [], [];
    }

    /** start: starts the consenter's chain. */
    method Start()
      requires chain != null && !panicked
      modifies chain
      ensures chain.started && chain.halted == old(chain.halted) && chain.queued == old(chain.queued)
    {
      chain.Start();
    }

    /** Enqueue: hands the envelope to the chain and returns its answer. */
    method Enqueue(env: Envelope) returns (accepted: bool)
      requires chain != null && !panicked
      modifies chain
      ensures accepted == !old(chain.halted)
      ensures chain.queued == if accepted then old(chain.queued) + [env] else old(chain.queued)
      ensures chain.started == old(chain.started) && chain.halted == old(chain.halted)
    {
      accepted := chain.Enqueue(env);
    }

    /** CreateNextBlock: a fresh block built by the ledger collaborator; nothing is appended. */
    method CreateNextBlock(messages: seq<Envelope>) returns (block: Block)
      requires AllocatesSlots(nextBlock) && !panicked
      ensures fresh(block) && fresh(block.metadata)
      ensures block.Value() == nextBlock(ledger, messages)
      ensures SIGNATURES < block.metadata.Length && LAST_CONFIGURATION < block.metadata.Length
    {
      block := new Block(nextBlock(ledger, messages));
    }

    /** addBlockSignature: stamps the SIGNATURES slot and no other. */
    method AddBlockSignature(block: Block, signatureHeader: Bytes)
      requires !panicked
      requires SIGNATURES < block.metadata.Length
      modifies this`events, block.metadata
      ensures block.metadata[SIGNATURES] == SignaturesEntry(codec, signer, signatureHeader, block.header)
      ensures forall i | 0 <= i < block.metadata.Length && i != SIGNATURES :: block.metadata[i] == old(block.metadata[i])
      ensures events == old(events) + [SignaturesStamped(block.header.number)]
    {
      block.metadata[SIGNATURES] := SignaturesEntry(codec, signer, signatureHeader, block.header);
      events := events + [SignaturesStamped(block.header.number)];
    }

    /**
     * addLastConfigSignature: moves lastConfiguration to this block when the
     * configuration sequence has grown, then stamps the LAST_CONFIGURATION
     * slot with the (possibly unchanged) index.
     */
    method AddLastConfigSignature(block: Block, sequence: uint64, signatureHeader: Bytes)
      requires Valid() && !panicked
      requires LAST_CONFIGURATION < block.metadata.Length
      modifies this`lastConfiguration, this`lastConfigSeq, this`observations, this`events, block.metadata
      ensures Valid()
      ensures sequence > old(lastConfigSeq) ==> lastConfiguration == block.header.number && lastConfigSeq == sequence
      ensures sequence <= old(lastConfigSeq) ==> lastConfiguration == old(lastConfiguration) && lastConfigSeq == old(lastConfigSeq)
      ensures observations == old(observations) + [Observation(block.header.number, sequence)]
      ensures block.metadata[LAST_CONFIGURATION] == LastConfigEntry(codec, signer, signatureHeader, block.header, lastConfiguration)
      ensures forall i | 0 <= i < block.metadata.Length && i != LAST_CONFIGURATION :: block.metadata[i] == old(block.metadata[i])
      ensures events == old(events) + [LastConfigStamped(block.header.number)]
    {
      var o := Observation(block.header.number, sequence);
      ReplaySnoc(Initial, observations, o);
      if sequence > lastConfigSeq {
        lastConfiguration := block.header.number;
        lastConfigSeq := sequence;
      }
      observations := observations + [o];
      block.metadata[LAST_CONFIGURATION] := LastConfigEntry(codec, signer, signatureHeader, block.header, lastConfiguration);
      events := events + [LastConfigStamped(block.header.number)];
    }

    /** ledger.Append, and the panic when it reports an error. */
    method AppendToLedger(block: Block, appendFails: bool)
      requires !panicked
      modifies this`ledger, this`panicked, this`events
      ensures panicked == appendFails
      ensures ledger == if appendFails then old(ledger) else old(ledger) + [block.Value()]
      ensures events == old(events) + [if appendFails then AppendPanicked(block.header.number) else Appended(block.header.number)]
    {
      if appendFails {
        panicked := true;
        events := events + [AppendPanicked(block.header.number)];
      } else {
        ledger := ledger + [block.Value()];
        events := events + [Appended(block.header.number)];
      }
    }

    /** The loop at the head of WriteBlock: Commit on each committer, in list order. */
    method InvokeCommitters(committers: seq<Committer>)
      requires !panicked
      modifies this`events
      ensures events == old(events) + Invocations(committers)
    {
      var i := 0;
      while i < |committers|
        invariant 0 <= i <= |committers|
        invariant events == old(events) + Invocations(committers[..i])
      {
        assert committers[..i + 1][..i] == committers[..i];
        events := events + [Committed(committers[i])];
        i := i + 1;
      }
      assert committers[..i] == committers;
    }

    /**
     * WriteBlock: commits, stamps, appends and returns the same block.
     * `sequence` is what the config manager reports once the committers have
     * run; the two signature headers are the signer's fresh headers; and
     * `appendFails` is the ledger's answer, on which the process panics.
     */
    method WriteBlock(block: Block, committers: seq<Committer>, sequence: uint64,
                      blockSignatureHeader: Bytes, lastConfigSignatureHeader: Bytes,
                      appendFails: bool) returns (written: Block)
      requires Valid() && !panicked
      requires SIGNATURES < block.metadata.Length && LAST_CONFIGURATION < block.metadata.Length
      modifies this`lastConfiguration, this`lastConfigSeq, this`observations, this`events
      modifies this`ledger, this`panicked, block.metadata
      ensures Valid() && written == block
      ensures block.header == old(block.header) && block.data == old(block.data)
      ensures Tracker(lastConfiguration, lastConfigSeq)
              == Track(old(Tracker(lastConfiguration, lastConfigSeq)), Observation(block.header.number, sequence))
      ensures observations == old(observations) + [Observation(block.header.number, sequence)]
      ensures block.metadata[SIGNATURES] == SignaturesEntry(codec, signer, blockSignatureHeader, block.header)
      ensures block.metadata[LAST_CONFIGURATION]
              == LastConfigEntry(codec, signer, lastConfigSignatureHeader, block.header, lastConfiguration)
      ensures forall i | 0 <= i < block.metadata.Length && i != SIGNATURES && i != LAST_CONFIGURATION ::
                block.metadata[i] == old(block.metadata[i])
      ensures events == old(events) + Invocations(committers)
                        + [SignaturesStamped(block.header.number)] + [LastConfigStamped(block.header.number)]
                        + [if appendFails then AppendPanicked(block.header.number) else Appended(block.header.number)]
      ensures panicked == appendFails
      ensures ledger == if appendFails then old(ledger) else old(ledger) + [block.Value()]
      ensures chain == old(chain)
    {
      InvokeCommitters(committers);

      AddBlockSignature(block, blockSignatureHeader);
      AddLastConfigSignature(block, sequence, lastConfigSignatureHeader);

      AppendToLedger(block, appendFails);
      written := block;
    }
  }

  /**
   * newChainSupport: builds the facade, picks the consenter registered for
   * the chain's consensus type and has it handle the new facade, once.
   * An unknown type or a HandleChain error is fatal.
   */
  method NewChainSupport(filters: seq<Rule>, consensusType: string, backing: seq<BlockValue>,
                         consenters: map<string, Consenter>, signer: Signer, codec: Codec,
                         nextBlock: (seq<BlockValue>, seq<Envelope>) -> BlockValue)
    returns (r: Result<ChainSupport, Fatal>)
    requires AllocatesSlots(nextBlock)
    modifies consenters.Values
    ensures consensusType !in consenters <==> r == Failure(UnknownConsensusType(consensusType))
    ensures consensusType !in consenters ==> forall c | c in consenters.Values :: c.handled == old(c.handled)
    ensures consensusType in consenters ==>
      var c := consenters[consensusType];
      && |c.handled| == |old(c.handled)| + 1
      && c.handled[..|old(c.handled)|] == old(c.handled)
      && fresh(c.handled[|c.handled| - 1])
      && (r.Failure? <==> c.refusal.Some?)
      && (r.Failure? ==> r.error == HandleChainFailed(c.refusal.value))
      && (r.Success? ==> c.handled[|c.handled| - 1] == r.value)
      && forall d | d in consenters.Values && d != c :: d.handled == old(d.handled)
    ensures r.Success? ==>
      var cs := r.value;
      && fresh(cs) && cs.Valid() && !cs.panicked
      && cs.chain != null && fresh(cs.chain) && !cs.chain.started && !cs.chain.halted
      && cs.filters == filters && cs.ledger == backing && cs.signer == signer && cs.codec == codec
      && cs.nextBlock == nextBlock
      && cs.lastConfiguration == 0 && cs.lastConfigSeq == 0
      && cs.observations == [] && cs.events == []
  {
    if consensusType !in consenters {
      return Failure(UnknownConsensusType(consensusType));
    }
    var consenter := consenters[consensusType];
    var cs := new ChainSupport(filters, backing, signer, codec, nextBlock);
    var handled := consenter.HandleChain(cs);
    match handled {
      case Failure(e) =>
        return Failure(HandleChainFailed(e));
      case Success(chain) =>
        cs.chain := chain;
        return Success(cs);
    }
  }
}
