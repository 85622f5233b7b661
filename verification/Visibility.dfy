/**
 * The one visibility authority shared by the three finalization participants:
 * a set of published commit identities and one insertion into it.
 */
module Visibility {
  import opened Options

  type RunId = string
  type CommitId = string

  /** A record with no commit is visible on its own account. */
  predicate IsVisible(published: set<CommitId>, commit: Option<CommitId>) {
    commit.None? || commit.value in published
  }

  class CommitLedger {
    var published: set<CommitId>

    constructor ()
      ensures published == {}
    {
      published := {};
    }

    method Publish(commitId: CommitId)
      modifies this
      ensures published == old(published) + {commitId}
    {
      published := published + {commitId};
    }
  }

  /** Publishing one commit reveals that commit's records and no others. */
  lemma PublishRevealsExactlyOneCommit(published: set<CommitId>, id: CommitId, commit: Option<CommitId>)
    ensures IsVisible(published + {id}, commit) <==> IsVisible(published, commit) || commit == Some(id)
  {
  }
}
