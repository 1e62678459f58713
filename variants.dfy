/** The two protocol clients run the same retrieval: configured alike over the
    same remote tree, they report the same outcome, send the same entries in
    the same order and leave their local file systems in the same state. */
module Variants {
  import opened Types
  import opened Utils
  import opened Retrieval
  import opened Sftp
  import opened Ftp

  method RetrieveWithBoth(relativeDirPath: string, sftp: SftpClient, ftp: FtpClient,
                          sftpChannel: Channel, ftpChannel: Channel, sftpFs: LocalFs, ftpFs: LocalFs)
    returns (sftpResult: Outcome, ftpResult: Outcome)
    requires sftp.Settings() == ftp.Settings() && sftp.connection == ftp.connection
    requires sftpChannel != ftpChannel && sftpFs != ftpFs
    requires sftpChannel.sent == ftpChannel.sent && sftpFs.State() == ftpFs.State()
    modifies sftpChannel, ftpChannel, sftpFs, ftpFs
    ensures sftpResult == ftpResult
    ensures sftpChannel.sent == ftpChannel.sent
    ensures sftpFs.State() == ftpFs.State()
  {
    sftpResult := sftp.RetrieveAll(relativeDirPath, sftpChannel, sftpFs);
    ftpResult := ftp.RetrieveAll(relativeDirPath, ftpChannel, ftpFs);
  }
}
