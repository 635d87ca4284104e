/** TcpConnection::StateE. */
module ConnState {
  datatype State = Connecting | Connected | Disconnecting | Disconnected
}
