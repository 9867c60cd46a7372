/** The plantation record shared by the plantation list, the plantation panel and the field view. */
module Plantations {

  /** `"simulada" | "real"`: a simulated plot or one backed by a device. */
  datatype Tipo = Simulada | Real

  /** The latest reading of a plantation. Sensor values are JavaScript numbers, here reals. */
  datatype Datos = Datos(humedad: real, luz: real, riegoActivo: bool, luzActiva: bool, timestamp: string)

  datatype Plantacion = Plantacion(id: string, nombre: string, tipo: Tipo, datos: Datos)
}
