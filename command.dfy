/**
 * The listen addresses the command picks (cmd/watermark.go): each port comes
 * from an environment variable, or from its default when the variable is
 * unset or empty, and is joined to the host "localhost". The environment is
 * a parameter: a snapshot of the process's variables.
 */
module Command {
  const DefaultHttpPort := "8081"
  const DefaultGrpcPort := "8082"
  const Host := "localhost"

  /** os.Getenv: the variable's value, "" when it is unset. */
  function Getenv(environ: map<string, string>, name: string): (v: string)
    ensures name in environ ==> v == environ[name]
    ensures name !in environ ==> v == ""
  {
    if name in environ then environ[name] else ""
  }

  /** envString: the variable's value, or the fallback when that value is empty. */
  function EnvString(environ: map<string, string>, name: string, fallback: string): (r: string)
    ensures name !in environ || environ[name] == "" ==> r == fallback
    ensures name in environ && environ[name] != "" ==> r == environ[name]
    ensures fallback != "" ==> r != ""
  {
    var e := Getenv(environ, name);
    if e == "" then fallback else e
  }

  /** net.JoinHostPort for a host without a colon: host, ':' and port. */
  function JoinHostPort(host: string, port: string): (addr: string)
    requires ':' !in host
    ensures |addr| == |host| + 1 + |port|
    ensures addr[..|host|] == host && addr[|host|] == ':' && addr[|host| + 1..] == port
  {
    host + ":" + port
  }

  /** The HTTP listen address: localhost, at HTTP_PORT when it is set and non-empty, else at 8081. */
  function HttpAddr(environ: map<string, string>): (addr: string)
    ensures |addr| > |Host| + 1 && addr[..|Host| + 1] == "localhost:"
    ensures addr[|Host| + 1..] == if "HTTP_PORT" in environ && environ["HTTP_PORT"] != "" then environ["HTTP_PORT"] else "8081"
  {
    JoinHostPort(Host, EnvString(environ, "HTTP_PORT", DefaultHttpPort))
  }

  /** The gRPC listen address: localhost, at GRPC_PORT when it is set and non-empty, else at 8082. */
  function GrpcAddr(environ: map<string, string>): (addr: string)
    ensures |addr| > |Host| + 1 && addr[..|Host| + 1] == "localhost:"
    ensures addr[|Host| + 1..] == if "GRPC_PORT" in environ && environ["GRPC_PORT"] != "" then environ["GRPC_PORT"] else "8082"
  {
    JoinHostPort(Host, EnvString(environ, "GRPC_PORT", DefaultGrpcPort))
  }

  /** The port is what follows "localhost:" in the address, so an address determines its port. */
  lemma {:induction false} JoinHostPortInjective(p: string, q: string)
    ensures JoinHostPort(Host, p) == JoinHostPort(Host, q) <==> p == q
  {
    if JoinHostPort(Host, p) == JoinHostPort(Host, q) {
      assert JoinHostPort(Host, p)[|Host| + 1..] == p;
      assert JoinHostPort(Host, q)[|Host| + 1..] == q;
    }
  }

  /** With neither variable set to a non-empty value the service listens on localhost:8081 and localhost:8082. */
  lemma DefaultAddresses(environ: map<string, string>)
    requires "HTTP_PORT" !in environ || environ["HTTP_PORT"] == ""
    requires "GRPC_PORT" !in environ || environ["GRPC_PORT"] == ""
    ensures HttpAddr(environ) == "localhost:8081"
    ensures GrpcAddr(environ) == "localhost:8082"
  {
    assert "localhost" + ":" + "8081" == "localhost:8081";
    assert "localhost" + ":" + "8082" == "localhost:8082";
  }

  /**
   * Each address carries the port its variable sets, when set and
   * non-empty, and its default otherwise; the two addresses are distinct
   * exactly when the two ports are.
   */
  lemma AddressPorts(environ: map<string, string>)
    ensures var httpPort := if "HTTP_PORT" in environ && environ["HTTP_PORT"] != "" then environ["HTTP_PORT"] else DefaultHttpPort;
            HttpAddr(environ)[|Host| + 1..] == httpPort
    ensures var grpcPort := if "GRPC_PORT" in environ && environ["GRPC_PORT"] != "" then environ["GRPC_PORT"] else DefaultGrpcPort;
            GrpcAddr(environ)[|Host| + 1..] == grpcPort
    ensures HttpAddr(environ) == GrpcAddr(environ) <==>
              EnvString(environ, "HTTP_PORT", DefaultHttpPort) == EnvString(environ, "GRPC_PORT", DefaultGrpcPort)
  {
    JoinHostPortInjective(EnvString(environ, "HTTP_PORT", DefaultHttpPort), EnvString(environ, "GRPC_PORT", DefaultGrpcPort));
  }
}
