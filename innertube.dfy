/** The parts of the youtubei.js client library the handlers call, as opaque values and as the
    outcome of each call. A call that can throw is given by its outcome: `Success` with what it
    returns, or `Failure` with the message of what it throws. */
module Innertube {
  import opened Wrappers
  import opened Web

  /** An instance built by `Innertube.create`. */
  datatype Client = Client(serial: nat)

  /** What `getBasicInfo` returns that is read here: `basic_info.title`, `None` when absent. */
  datatype Info = Info(title: Option<string>)

  /** The options passed to `info.download`. */
  datatype DownloadOptions = DownloadOptions(kind: string, quality: string)

  /** How the library answers one attempt: `Innertube.create` (consulted only when the client is
      rebuilt), `getBasicInfo` and `info.download`. */
  datatype Network = Network(
    create: Result<Client, string>,
    basicInfo: Result<Info, string>,
    download: Result<Stream, string>)

  /** The requests a handler makes of the library, in order (`Create` is `Innertube.create`), and
      its resets of the shared client. */
  datatype Call = Create | BasicInfo(videoId: string) | Download(options: DownloadOptions) | ResetClient
}
