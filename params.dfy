/** The server parameters: the runtime knobs the bootstrap reads and, during validation, fills in. */
module Params {
  import opened Base

  /** How the listening socket is obtained: bind anew, an inherited descriptor, or a descriptor file. */
  datatype Fd = NoFd | IntFd(n: int) | PathFd(path: string)

  class ServerParameters {
    var port: int
    var ip: string
    var fd: Fd
    var configPath: string
    var useEnvironment: bool
    var logLevel: string
    var debug: bool
    var appClass: string
    var securityKey: Option<string>
    var gifsiclePath: Option<string>

    constructor (port: int, ip: string, fd: Fd, configPath: string, useEnvironment: bool,
                 logLevel: string, debug: bool, appClass: string, securityKey: Option<string>)
      ensures this.port == port && this.ip == ip && this.fd == fd
      ensures this.configPath == configPath && this.useEnvironment == useEnvironment
      ensures this.logLevel == logLevel && this.debug == debug && this.appClass == appClass
      ensures this.securityKey == securityKey && this.gifsiclePath == None
    {
      this.port := port;
      this.ip := ip;
      this.fd := fd;
      this.configPath := configPath;
      this.useEnvironment := useEnvironment;
      this.logLevel := logLevel;
      this.debug := debug;
      this.appClass := appClass;
      this.securityKey := securityKey;
      this.gifsiclePath := None;
    }
  }
}
