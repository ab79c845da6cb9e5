/** The `SerialPort` enum of src/hal/serial.rs, in a module of its own so that
    the I/O-port module and the serial module can both use it. */
module SerialPorts {
  datatype SerialPort = OnBoard | MXP | USB1 | USB2
}
