/** The cleanup service: one sweep over avatars, then one over attachments. */
module CleanupService {
  import A = Avatars
  import AC = AvatarCleanup
  import C = ChatDb
  import R = Runs
  import S = UploadSafety
  import T = AttachmentCleanup
  import U = Uploads

  class Service {
    const avatars: AC.AvatarCleanupService
    const attachments: T.AttachmentCleanupService
    const staleUploadAgeMs: nat
    const unboundAttachmentAgeMs: nat

    constructor (avatars: AC.AvatarCleanupService, attachments: T.AttachmentCleanupService, staleUploadAgeMs: nat, unboundAttachmentAgeMs: nat)
      ensures this.avatars == avatars && this.attachments == attachments
      ensures this.staleUploadAgeMs == staleUploadAgeMs && this.unboundAttachmentAgeMs == unboundAttachmentAgeMs
    {
      this.avatars, this.attachments := avatars, attachments;
      this.staleUploadAgeMs, this.unboundAttachmentAgeMs := staleUploadAgeMs, unboundAttachmentAgeMs;
    }

    /** One sweep: the avatar listing is taken and worked through, then stale attachment claims are reset and the attachment
        listing is taken and worked through. Everything listed is inspected; every listed attachment has lost its objects and
        its row, every listed avatar its incoming object and, unless it was current, its public object. Without interference
        no listed avatar but a current one has a row, and every listed attachment counts as deleted. */
    method RunOnce(now: int)
      returns (inspected: nat, deletedAssets: nat, clearedIncomingObjects: nat,
               listedAvatars: seq<A.Cleanup>, listedAttachments: T.Candidates)
      requires staleUploadAgeMs > 0 && avatars.Fair() && avatars.Unused() && A.Valid(avatars.View())
      requires attachments.Fair() && S.Valid(attachments.backend.setup, attachments.View())
      modifies avatars, avatars.repository, attachments.backend
      ensures
        var seen := avatars.outside(old(avatars.awaits), old(avatars.View()));
        var batch := avatars.listing(seen, now, now - staleUploadAgeMs);
        |listedAvatars| == |batch| && forall j :: 0 <= j < |batch| ==> AC.Notes(seen, batch[j], listedAvatars[j])
      ensures
        var k, stale, b := old(attachments.backend.awaits), now - staleUploadAgeMs, attachments.backend;
        var seen := T.Seen(b.setup, b.outside, old(attachments.View()), k, stale, now);
        T.AreCandidates(seen, attachments.listing(attachments.rows(k + 1, seen), now, now - unboundAttachmentAgeMs, stale), listedAttachments)
      ensures inspected == |listedAvatars| + |listedAttachments| && deletedAssets <= inspected
      ensures clearedIncomingObjects ==
        AC.Cleared(avatars.cleanups, avatars.ids, old(avatars.named), |listedAvatars|) + T.WithIncoming(listedAttachments)
      ensures forall j :: 0 <= j < |listedAvatars| ==>
        && AC.IsFinished(listedAvatars[j], avatars.cleanups, avatars.ids(old(avatars.named) + j))
        && AC.LostObjects(old(avatars.View()), avatars.View(), listedAvatars[j])
      ensures forall c :: c in listedAttachments ==>
        && c.0 !in attachments.backend.assets
        && T.LostObjects(attachments.backend.setup, old(attachments.View()), attachments.View(), c.1)
      ensures AC.Quiet(avatars.outside) ==> forall c :: c in listedAvatars ==> AC.IsRemoved(avatars.View(), c)
      ensures T.Quiet(attachments.backend.outside) ==>
        deletedAssets == AC.Deleted(avatars.cleanups, avatars.ids, old(avatars.named), |listedAvatars|) + |listedAttachments|
      ensures R.Leads(A.Stepper(), old(avatars.View()), avatars.View()) && A.Valid(avatars.View())
      ensures R.Leads(attachments.Next(), old(attachments.View()), attachments.View())
      ensures S.Valid(attachments.backend.setup, attachments.View())
    {
      hide R.Leads, R.Plays, A.Valid, S.Valid, AC.Cleared, AC.Deleted, AC.Notes, AC.IsFinished, AC.LostObjects, AC.IsRemoved;
      hide T.AreCandidates, T.Seen, T.WithIncoming, T.LostObjects, U.ResetStale, AC.IsBatch, T.IsBatch, AC.AllSweeps, AC.Picks, T.AllSweeps, T.Picks;
      var staleBefore := now - staleUploadAgeMs;
      ghost var from := avatars.named;
      listedAvatars, deletedAssets, clearedIncomingObjects := avatars.RunOnce(now, staleBefore);
      AC.DeletedBounded(avatars.cleanups, avatars.ids, from, |listedAvatars|);
      var deleted, cleared;
      listedAttachments, deleted, cleared := attachments.RunOnce(now, now - unboundAttachmentAgeMs, staleBefore);
      inspected := |listedAvatars| + |listedAttachments|;
      deletedAssets := deletedAssets + deleted;
      clearedIncomingObjects := clearedIncomingObjects + cleared;
    }
  }
}
