/** Blocks and the linked chain they form (internal/scalegraph/block.go, blockchain.go). */
module Blockchains {
  import opened Wrappers
  import opened Ids
  import opened Transactions

  /** Immutable once built. Only the genesis block has no predecessor and no transaction. */
  class Block {
    const id: ScalegraphId
    const prevBlock: Block?
    const transaction: Option<Transaction>

    constructor Genesis(id: ScalegraphId)
      ensures this.id == id && prevBlock == null && transaction == None
    {
      this.id, prevBlock, transaction := id, null, None;
    }

    constructor Next(id: ScalegraphId, prevBlock: Block, transaction: Transaction)
      ensures this.id == id && this.prevBlock == prevBlock && this.transaction == Some(transaction)
    {
      this.id, this.prevBlock, this.transaction := id, prevBlock, Some(transaction);
    }
  }

  /** Following the predecessors from tail reaches head after exactly these transactions, newest first. */
  ghost predicate Links(tail: Block?, head: Block, transactions: seq<Transaction>)
    decreases |transactions|
  {
    && tail != null
    && if transactions == [] then tail == head && tail.prevBlock == null && tail.transaction == None
       else
         var last := |transactions| - 1;
         tail.transaction == Some(transactions[last]) && Links(tail.prevBlock, head, transactions[..last])
  }

  /** The pointers determine the history: one tail cannot stand for two chains. */
  lemma {:induction false} LinksDetermineHistory(
    tail: Block, head: Block, head': Block, transactions: seq<Transaction>, transactions': seq<Transaction>)
    requires Links(tail, head, transactions) && Links(tail, head', transactions')
    ensures head == head' && transactions == transactions'
    decreases |transactions|
  {
    if transactions != [] && transactions' != [] {
      var last, last' := |transactions| - 1, |transactions'| - 1;
      LinksDetermineHistory(tail.prevBlock, head, head', transactions[..last], transactions'[..last']);
      assert transactions == transactions[..last] + [transactions[last]];
      assert transactions' == transactions'[..last'] + [transactions'[last']];
    }
  }

  /** The whole chain in genesis-first order. */
  ghost predicate ListsChain(blocks: seq<Block>, head: Block, tail: Block, transactions: seq<Transaction>) {
    && |blocks| == |transactions| + 1
    && blocks[0] == head && blocks[|transactions|] == tail
    && head.prevBlock == null && head.transaction == None
    && forall i | 0 <= i < |transactions| ::
         blocks[i + 1].prevBlock == blocks[i] && blocks[i + 1].transaction == Some(transactions[i])
  }

  class Blockchain {
    var head: Block
    var tail: Block
    var length: nat
    ghost var transactions: seq<Transaction>

    ghost predicate Valid()
      reads this
    {
      Links(tail, head, transactions) && length == |transactions| + 1
    }

    constructor ()
      ensures Valid() && transactions == [] && tail == head
    {
      var genesisId: ScalegraphId := *;
      var genesis := new Block.Genesis(genesisId);
      head, tail, length := genesis, genesis, 1;
      transactions := [];
    }

    method Append(trx: Transaction) returns (block: Block)
      requires Valid()
      modifies this
      ensures Valid() && transactions == old(transactions) + [trx]
      ensures tail == block && block.prevBlock == old(tail) && head == old(head)
    {
      var newId: ScalegraphId := *;
      block := new Block.Next(newId, tail, trx);
      tail := block;
      length := length + 1;
      transactions := transactions + [trx];
      assert transactions[..|transactions| - 1] == old(transactions);
    }

    /** Undoes the latest Append; the genesis block stays. */
    method RemoveLatestBlock()
      requires Valid()
      modifies this
      ensures Valid() && head == old(head)
      ensures old(transactions) == [] ==> transactions == [] && tail == old(tail)
      ensures old(transactions) != [] ==>
                transactions == old(transactions)[..|old(transactions)| - 1] && tail == old(tail).prevBlock
    {
      if length <= 1 {
        return;
      }
      assert Links(tail.prevBlock, head, transactions[..|transactions| - 1]);
      tail := tail.prevBlock;
      length := length - 1;
      transactions := transactions[..|transactions| - 1];
    }

    method Len() returns (n: nat)
      requires Valid()
      ensures n == |transactions| + 1
    {
      n := length;
    }

    method GetBlocks() returns (blocks: seq<Block>)
      requires Valid()
      ensures ListsChain(blocks, head, tail, transactions)
    {
      assert transactions[..length - 1] == transactions;
      blocks := [];
      var current: Block? := tail;
      while current != null
        invariant |blocks| <= length
        invariant current == null <==> |blocks| == length
        invariant current != null ==> Links(current, head, transactions[..length - 1 - |blocks|])
        invariant current == if blocks == [] then tail else blocks[|blocks| - 1].prevBlock
        invariant blocks != [] ==> blocks[0] == tail
        invariant forall i | 0 < i < |blocks| :: blocks[i] == blocks[i - 1].prevBlock
        invariant forall i | 0 <= i < |blocks| && i < length - 1 ::
                    blocks[i].transaction == Some(transactions[length - 2 - i])
        invariant |blocks| == length ==> blocks[length - 1] == head && head.transaction == None
        decreases length - |blocks|
      {
        assert transactions[..length - 1 - |blocks|] != [] ==>
            transactions[..length - 1 - |blocks|][..length - 2 - |blocks|] == transactions[..length - 2 - |blocks|];
        blocks := blocks + [current];
        current := current.prevBlock;
      }
      blocks := Reversed(blocks);
    }
  }

  function Reversed<T>(s: seq<T>): (r: seq<T>)
    ensures |r| == |s|
    ensures forall i | 0 <= i < |s| :: r[i] == s[|s| - 1 - i]
  {
    if s == [] then [] else Reversed(s[1..]) + [s[0]]
  }
}
