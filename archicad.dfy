/** The names ArchiCAD writes into an exported IFC file: the property set that carries
    its element properties and the two floor properties read from it. */
module ArchiCad {
  const PsetName := "ArchiCADProperties"
  const NameKey := "Ursprungsgeschoss Name"
  const NumberKey := "Ursprungsgeschoss Nummer"
}
