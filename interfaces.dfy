/**
 * The shapes of the records the landlord pages exchange with the backend.
 * Optional members are `Option`s.
 */
module Interfaces {
  import opened Js

  /** A unit's description: optional flags, services and free text. */
  datatype Descripcion = Descripcion(
    terraza: Option<bool>,
    amueblado: Option<bool>,
    servicios: Option<seq<string>>,
    caracteristicas: Option<string>)

  /** A rentable unit of a property. `descripcion` may be missing in what the backend sends. */
  datatype Unidad = Unidad(
    id: int,
    propiedadId: int,
    precio: int,
    descripcion: Option<Descripcion>,
    imagenes: seq<string>,
    disponible: bool)

  /** A property as the landlord's listing returns it. */
  datatype PropiedadBackend = PropiedadBackend(
    id: int,
    nombre: string,
    calle: string,
    colonia: string,
    numero: string,
    municipio: string,
    visible: Option<bool>)

  /** The landlord as a property's detail shows them; the telephone may be missing. */
  datatype Rentero = Rentero(nombre: string, telefono: Option<string>)

  /** A property with its description, images and landlord. */
  datatype Propiedad = Propiedad(
    id: int,
    nombre: string,
    precio: int,
    descripcion: Option<Descripcion>,
    imagenes: seq<string>,
    rentero: Rentero)
}
