/** The record shapes of src/types/index.ts. A field the JavaScript may see as
    `undefined` (a CSV column that was not there) is modelled by the empty string
    wherever the code only tests it for truthiness. */
module Types {

  /** One vehicle detection on the road. */
  datatype TrafficData = TrafficData(
    timestamp: string,
    objectId: int,
    className: string,
    direction: string,
    speedKmh: real)

  /** One vehicle entering or leaving the car park. */
  datatype ParkingData = ParkingData(
    timestamp: string,
    objectId: int,
    vehicleType: string,
    direction: string,
    city: string,
    engineSize: int,
    kana: string,
    fourDigitNumber: string)
}
