/**
 Publication of one shell record with rollback. The replacer may leave anything at
 the target and may throw, but rewrites no existing inode in place; any read may
 fail; removing temporaries and backups does not throw. An inode's bytes do not
 change while it exists, so an inode in place is its content in place.
 */
module ShellRecordFile {
  import opened Wrappers

  type Bytes = seq<int>

  /** What a directory entry can name. */
  datatype Node = Regular(ino: nat) | Fifo(ino: nat) | Symlink(link: string) | Other(ino: nat)

  datatype ReadResult = Missing | Oversize | NonRegular | Unreadable | Data(bytes: Bytes)

  /** The prior target: absent, its bytes, or a retained link to the object itself. */
  datatype Prior = NoPrior | Buffered(bytes: Bytes) | Retained(node: Node)

  datatype Result = Published | InvalidInput | WriteFailed | RestoreFailed

  /** What the environment does during one publication. */
  datatype Attempt = Attempt(
    openFails: bool,              // the temporary file cannot be created
    stageFails: bool,             // writing or flushing it fails
    replaced: Option<Node>,       // what the replacer leaves at the target
    replacerThrows: bool,
    readBackFails: bool)

  /** What the environment does during one write. */
  datatype Io = Io(
    captureReadFails: bool,
    retainFails: bool,
    publish: Attempt,
    currentReadFails: bool,
    loadFails: bool,
    removeFails: bool,
    restored: Option<Node>,       // what the restore replacer leaves when it moves a backup
    restoreThrows: bool,
    republish: Attempt)

  class RecordFile {
    const limit: nat
    const contents: nat -> Bytes            // the bytes behind an inode
    const inodeFor: Bytes -> nat            // the inode a temporary with these bytes gets
    const accepted: Bytes -> bool           // `load` accepts these bytes as a record
    const recordLike: Bytes -> bool         // an object with a version, an epoch or a revision
    var target: Option<Node>

    ghost predicate Valid() {
      forall b :: contents(inodeFor(b)) == b
    }

    constructor (limit: nat, contents: nat -> Bytes, inodeFor: Bytes -> nat,
                 accepted: Bytes -> bool, recordLike: Bytes -> bool, target: Option<Node>)
      requires forall b :: contents(inodeFor(b)) == b
      ensures Valid() && this.target == target && this.limit == limit
    {
      this.limit, this.contents, this.inodeFor := limit, contents, inodeFor;
      this.accepted, this.recordLike, this.target := accepted, recordLike, target;
    }

    /** The target holds exactly these bytes. */
    predicate Holds(t: Option<Node>, bytes: Bytes) {
      t.Some? && t.value.Regular? && contents(t.value.ino) == bytes
    }

    /** The same object, the same bytes or the same absence. */
    ghost predicate Unchanged(before: Option<Node>, after: Option<Node>) {
      after == before || (before.Some? && before.value.Regular? && Holds(after, contents(before.value.ino)))
    }

    /** A record-like content other than the attempted one, which a rollback must not destroy. */
    ghost predicate ForeignRecord(t: Option<Node>, attempted: Bytes) {
      && t.Some? && t.value.Regular?
      && contents(t.value.ino) != attempted
      && (accepted(contents(t.value.ino)) || recordLike(contents(t.value.ino)))
    }

    method ReadTarget(fails: bool) returns (r: ReadResult)
      ensures r.Data? ==> Holds(target, r.bytes) && |r.bytes| <= limit
      ensures r.Missing? ==> target.None?
      ensures r.NonRegular? ==> target.Some? && !target.value.Regular?
      ensures r.Oversize? ==> target.Some? && target.value.Regular? && |contents(target.value.ino)| > limit
      ensures r.Unreadable? <==> fails && target.Some? && target.value.Regular?
    {
      if target.None? { return Missing; }
      if !target.value.Regular? { return NonRegular; }
      if fails { return Unreadable; }
      var bytes := contents(target.value.ino);
      return if |bytes| > limit then Oversize else Data(bytes);
    }

    /** The publication's outcome and the inode of its temporary, as far as it got. */
    method Publish(bytes: Bytes, a: Attempt) returns (verified: bool, candidate: Option<nat>)
      requires Valid()
      modifies this`target
      ensures verified <==>
              && !a.openFails && !a.stageFails && !a.replacerThrows && !a.readBackFails
              && Holds(a.replaced, bytes) && |bytes| <= limit
      ensures target == if a.openFails || a.stageFails then old(target) else a.replaced
      ensures candidate == if a.openFails then None else Some(inodeFor(bytes))
    {
      if a.openFails { return false, None; }
      candidate := Some(inodeFor(bytes));
      if a.stageFails { return false, candidate; }
      target := a.replaced;
      if a.replacerThrows { return false, candidate; }
      var observed := ReadTarget(a.readBackFails);
      verified := observed.Data? && observed.bytes == bytes;
    }

    /** There is nothing to save, it can be read, or it can be retained as it is. */
    predicate Capturable(allowSpecialRebuild: bool, io: Io)
      reads this
    {
      target.None? || match target.value {
        case Regular(ino) =>
          if io.captureReadFails then allowSpecialRebuild && !io.retainFails else |contents(ino)| <= limit || !io.retainFails
        case Other(_) => false
        case _ => allowSpecialRebuild && !io.retainFails
      }
    }

    method CapturePrior(allowSpecialRebuild: bool, io: Io) returns (prior: Option<Prior>)
      ensures prior.Some? <==> Capturable(allowSpecialRebuild, io)
      ensures prior.Some? ==>
                match prior.value {
                  case NoPrior => target.None?
                  case Buffered(bytes) => Holds(target, bytes)
                  case Retained(node) => target == Some(node) && !node.Other?
                }
    {
      var previous := ReadTarget(io.captureReadFails);
      match previous
      case Missing => return Some(NoPrior);
      case Data(bytes) => return Some(Buffered(bytes));
      case Unreadable =>
        if !allowSpecialRebuild || io.retainFails { return None; }
        return Some(Retained(target.value));
      case NonRegular =>
        if !allowSpecialRebuild || target.value.Other? || io.retainFails { return None; }
        return Some(Retained(target.value));
      case Oversize =>
        if io.retainFails { return None; }
        return Some(Retained(target.value));
    }

    /** The target can be read and what puts the prior back does its work. */
    ghost predicate RollbackCanWork(t: Option<Node>, prior: Prior, io: Io) {
      && !io.currentReadFails && (t.Some? ==> t.value.Regular? && |contents(t.value.ino)| <= limit)
      && match prior {
           case NoPrior => !io.removeFails
           case Buffered(bytes) =>
             && !io.republish.openFails && !io.republish.stageFails && !io.republish.replacerThrows && !io.republish.readBackFails
             && Holds(io.republish.replaced, bytes) && |bytes| <= limit
           case Retained(node) => !io.restoreThrows && io.restored == Some(node)
         }
    }

    /** Restore the prior target, except that a competing record is left exactly as it is. */
    method FailedWrite(prior: Prior, attempted: Bytes, candidate: Option<nat>, io: Io) returns (r: Result)
      requires Valid() && (candidate.Some? ==> contents(candidate.value) == attempted)
      modifies this`target
      ensures r == WriteFailed || r == RestoreFailed
      ensures r == WriteFailed ==>
                || ForeignRecord(target, attempted)
                || match prior {
                     case NoPrior => target.None?
                     case Buffered(bytes) => Holds(target, bytes)
                     case Retained(node) => target == Some(node)
                   }
      ensures var t := old(target);
              ForeignRecord(t, attempted) && recordLike(contents(t.value.ino)) ==> target == t
      ensures RollbackCanWork(old(target), prior, io) ==> r == WriteFailed
    {
      if prior.Retained? && target == Some(prior.node) { return WriteFailed; }
      var current := ReadTarget(io.currentReadFails);
      var candidateInPlace := candidate.Some? && target == Some(Regular(candidate.value));
      if (current.Unreadable? || current.Oversize? || current.NonRegular?) && !candidateInPlace {
        return RestoreFailed;
      }
      if current.Data? && current.bytes != attempted {
        if !io.loadFails && accepted(current.bytes) { return WriteFailed; }
        if recordLike(current.bytes) { return WriteFailed; }
      }
      match prior
      case NoPrior =>
        if io.removeFails { return RestoreFailed; }
        target := None;
        return WriteFailed;
      case Retained(node) =>
        target := io.restored;
        if io.restoreThrows || target != Some(node) { return RestoreFailed; }
        return WriteFailed;
      case Buffered(bytes) =>
        if current.Data? && current.bytes == bytes { return WriteFailed; }
        var verified, _ := Publish(bytes, io.republish);
        return if verified then WriteFailed else RestoreFailed;
    }

    /**
     Main result, for every behaviour of the replacer: a write that reports success
     left exactly the attempted bytes, and one that reports `write_failed` left the
     prior object, bytes or absence, or a record it did not attempt.
     */
    method Write(attempted: Bytes, allowSpecialRebuild: bool, io: Io) returns (r: Result)
      requires Valid()
      modifies this`target
      ensures r == Published ==> Holds(target, attempted) && |attempted| <= limit
      ensures r == Published <==>
              && |attempted| <= limit && old(Capturable(allowSpecialRebuild, io))
              && !io.publish.openFails && !io.publish.stageFails && !io.publish.replacerThrows && !io.publish.readBackFails
              && Holds(io.publish.replaced, attempted)
      ensures !old(Capturable(allowSpecialRebuild, io)) ==> target == old(target)
      ensures r == InvalidInput <==> |attempted| > limit
      ensures r == InvalidInput ==> target == old(target)
      ensures r == WriteFailed ==> Unchanged(old(target), target) || ForeignRecord(target, attempted)
      ensures r == WriteFailed && !Holds(old(target), attempted) ==> !Holds(target, attempted)
    {
      if |attempted| > limit { return InvalidInput; }
      var prior := CapturePrior(allowSpecialRebuild, io);
      if prior.None? { return WriteFailed; }
      var verified, candidate := Publish(attempted, io.publish);
      if verified { return Published; }
      r := FailedWrite(prior.value, attempted, candidate, io);
    }
  }
}
