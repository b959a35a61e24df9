/**
 Saving the resume state of a running session and dropping it: which frames could arrive if the
 session is kept, which after leaving, and so which are lost by leaving.
 */
module ResumeLeaving {
  import opened Basics
  import opened Sessions
  import opened ResumeServer
  import opened ResumeDelivery
  import opened ResumeClient
  import opened ResumeHistory
  import opened ResumeLoss
  import opened ResumeFlow
  import opened ResumeRecovery
  import opened ResumeHidden
  import opened ResumeStaying

  /** After leaving, a frame can arrive if and only if the resume works and the frame is still to be broadcast or in the answer. */
  lemma LeavingIff(w: World, i: nat)
    requires ResumeClient.Reachable(w) && w.client.stage.Active? && i < |w.server.log| && i !in w.client.handed
    ensures !NeverArrives(Next(w, Disconnect), i) <==> ComesBack(w, i)
  {
    ReachableNext(w, Disconnect);
    CanStillArriveIff(Next(w, Disconnect), i);
  }

  /** For a frame that the cursor has reached, that is: it is not broadcast yet and the token is current. */
  lemma HiddenComesBackIff(w: World, i: nat)
    requires ResumeClient.Reachable(w) && w.client.stage.Active? && i < |w.server.log| && i !in w.client.handed
    requires w.client.last.Reached(w.server.log[i])
    ensures ComesBack(w, i) <==> i >= |w.server.at| && w.client.token == w.server.session.resumeToken
  {
    LeavingIff(w, i);
    ReachableNext(w, Disconnect);
    HiddenCanStillArriveIff(Next(w, Disconnect), i);
  }

  /** What arrives after a step can arrive. */
  lemma ArrivesAfter(w: World, step: Step, i: nat)
    requires Enabled(w, step) && !NeverArrives(Next(w, step), i)
    ensures !NeverArrives(w, i)
  {
    var steps :| Run(Next(w, step), steps).Some? && i in Run(Next(w, step), steps).value.client.handed;
    RunPrepend(w, step, steps);
  }

  /**
   In a running session, a frame that the application has not got can still arrive if and only if it
   is pending, or on its way on this connection, or would come back after leaving. Only of a frame
   lost to lag, with an answer that is too long now, this is not said.
   */
  lemma KeepingIff(w: World, i: nat)
    requires ResumeClient.Reachable(w) && w.client.stage.Active? && i < |w.server.log| && i !in w.client.handed
    requires !LagHides(w, i)
    ensures !NeverArrives(w, i) <==> i in w.client.pending || Coming(w, i) || ComesBack(w, i)
  {
    ReachableSide(w);
    if i in w.client.pending || Coming(w, i) {
      KeptArrives(w, i);
    } else if ComesBack(w, i) {
      LeavingIff(w, i);
      ArrivesAfter(w, Disconnect, i);
    } else {
      KeptNever(w, i);
    }
  }

  /** Leaving loses frame i: it could arrive, and after leaving it cannot. */
  ghost predicate LostByLeaving(w: World, i: nat)
    requires w.client.stage.Active?
  {
    !NeverArrives(w, i) && NeverArrives(Next(w, Disconnect), i)
  }

  /**
   Saving the resume state and dropping the session loses a frame if and only if the frame is pending
   or on its way, and would not come back.
   */
  lemma LostByLeavingIff(w: World, i: nat)
    requires ResumeClient.Reachable(w) && w.client.stage.Active? && i < |w.server.log| && i !in w.client.handed
    requires !LagHides(w, i)
    ensures LostByLeaving(w, i) <==> (i in w.client.pending || Coming(w, i)) && !ComesBack(w, i)
  {
    KeepingIff(w, i);
    LeavingIff(w, i);
  }

  /** A frame that is worth staying for. */
  ghost predicate AtStake(w: World, i: nat) {
    i < |w.server.log| && i !in w.client.handed && (i in w.client.pending || Coming(w, i))
  }

  /** No frame is lost by leaving. */
  ghost predicate SafeToLeave(w: World)
    requires w.client.stage.Active?
  {
    forall i :: 0 <= i < |w.server.log| && i !in w.client.handed ==> !LostByLeaving(w, i)
  }

  ghost predicate AllComeBack(w: World) {
    forall i :: 0 <= i && AtStake(w, i) ==> ComesBack(w, i)
  }

  /**
   Leaving is safe if and only if every frame at stake would come back, unless nothing is at stake
   and lag hides a frame.
   */
  lemma DisconnectIsSafeIff(w: World)
    requires ResumeClient.Reachable(w) && w.client.stage.Active?
    ensures SafeToLeave(w) ==> AllComeBack(w)
    ensures (exists i :: 0 <= i && AtStake(w, i)) || (forall i :: 0 <= i && i !in w.client.handed ==> !LagHides(w, i)) ==>
              (SafeToLeave(w) <==> AllComeBack(w))
  {
    forall i | 0 <= i < |w.server.log| && i !in w.client.handed && !LagHides(w, i)
      ensures LostByLeaving(w, i) <==> AtStake(w, i) && !ComesBack(w, i)
    {
      LostByLeavingIff(w, i);
    }
  }

  /** What is dropped and does not come back is lost for good. */
  lemma DisconnectLosesForever(w: World, i: nat)
    requires ResumeClient.Reachable(w) && w.client.stage.Active? && AtStake(w, i) && !ComesBack(w, i)
    ensures LostByLeaving(w, i)
  {
    LostByLeavingIff(w, i);
  }
}
