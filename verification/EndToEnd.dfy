/**
 * The final reply on the control channel and the file on the other side: the control session composed
 * with the transfer that its worker carries out.
 */
module EndToEnd {
  import opened Bytes
  import opened Readers
  import opened FilePipeline
  import L = Lifecycle
  import LifecycleProofs
  import Retr
  import RetrTheorems
  import Upload
  import UploadProofs

  /** The upload that ends in `u` is what the worker received: its success is receiveFile's, its payload what that saved. */
  ghost predicate Receives(x: L.Worker, u: Upload.System) {
    x.job.Upload? && (x.success ==> u.server.phase == Upload.Stopped(true) && u.server.writer.dest == Some(x.job.payload))
  }

  /** The download that ends in `u` is what the worker sent: its data phase went well only if flush did. */
  ghost predicate Sends(x: L.Worker, u: Retr.System) {
    x.job.Download? && (x.dataOk ==> u.server.phase.Succeeded?)
  }

  /**
   * A 226 for STOR or STOU says that the destination holds the client's file in the transfer type; for
   * APPE, the old contents followed by it.
   */
  lemma UploadReplyMeansStored(files: map<nat, Data>, actions: seq<L.Action>, t: L.Session, i: nat,
                               c: Upload.Config, file: Data, run: seq<Upload.Action>, u: Upload.System)
    requires L.Run(L.Init(files), actions, t) && i < |t.log| && t.log[i].Complete226?
    requires t.log[i].worker < |t.workers| && Receives(t.workers[t.log[i].worker], u)
    requires Upload.Admissible(c) && c.pieces == Pieces(InType(file, c.ascii)) && Upload.Run(c, Upload.Init(c), run, u)
    ensures var x, whole := t.workers[t.log[i].worker], InType(file, c.ascii);
            t.log[i].contents == Some(if x.job.kind.Append? && x.before.Some? then x.before.value + whole else whole)
  {
    LifecycleProofs.CompleteMeansStored(files, actions, t, i);
    UploadProofs.UploadCopiesFile(c, file, run, u);
  }

  /** A 226 for RETR says that the client has saved the server's file in the transfer type. */
  lemma DownloadReplyMeansSaved(files: map<nat, Data>, actions: seq<L.Action>, t: L.Session, i: nat,
                                c: Retr.Config, file: Data, run: seq<Retr.Action>, u: Retr.System)
    requires L.Run(L.Init(files), actions, t) && i < |t.log| && t.log[i].Complete226?
    requires t.log[i].worker < |t.workers| && Sends(t.workers[t.log[i].worker], u)
    requires Retr.Admissible(c) && c.pieces == Pieces(InType(file, c.ascii)) && Retr.Run(c, Retr.Init(c), run, u)
    ensures u.client.writer.committed && u.client.writer.dest == Some(InType(file, c.ascii))
  {
    LifecycleProofs.CompleteMeansStored(files, actions, t, i);
    LifecycleProofs.RunKeepsData(L.Init(files), actions, t);
    RetrTheorems.SuccessMeansSaved(c, run, u);
    RetrTheorems.DownloadCopiesFile(c, file, run, u);
  }
}
