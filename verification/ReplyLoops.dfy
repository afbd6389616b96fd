/** When the reply loops of indexer/getBlock.go stop reading their channel. */
module ReplyLoops {
  datatype Verdict = Return | Again(i: nat)

  /** GetBlockHashes: i replies were read before this one. */
  function AfterHash(expected: nat, i: nat): Verdict {
    if i + 1 == expected then Return else Again(i + 1)
  }

  /** getOthers: an error reply is skipped, and ends the loop only after seven others. */
  function AfterOther(i: nat, failed: bool): Verdict {
    if failed then
      if i == 7 then Return else Again(i + 1)
    else
      if i == 6 then Return else Again(i + 1)
  }
}
